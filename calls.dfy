/**
 * Telephony webhooks and the outbound-call endpoint (routers/calls.py):
 * registering an inbound call, matching the AI agent's leg to it, and
 * starting an outbound AI call. TwiML documents are reduced to the data they
 * carry (the recording callback, the stream URL, or a hang-up).
 */
module Calls {
  import opened Wrappers
  import opened Strings
  import opened PyDict
  import opened CallUtils
  import opened Constants
  import opened UrlParser
  import opened State
  import opened NextjsClient

  // ---------------------------------------------------------------------
  // incoming_call

  datatype IncomingReply =
    /** Dial the agent application, recording to `recordingCallback` when known. */
    | DialAgent(recordingCallback: Option<string>)
    /** 400 "Error: CallSid missing" */
    | IncomingMissingCallSid

  /**
   * `incoming_call`: resolve the call id of a new inbound call (`remote` is
   * the remote lookup's answer) and remember the caller for the agent leg.
   */
  method IncomingCall(reg: Registry, appUrl: string, callSid: string, caller: string, remote: string, now: int)
    returns (r: IncomingReply)
    requires reg.Valid()
    modifies reg
    ensures reg.Valid()
    ensures reg.active == old(reg.active) && reg.agent == old(reg.agent)
    ensures r == IncomingMissingCallSid <==> callSid == ""
    ensures callSid == "" ==> reg.incoming == old(reg.incoming)
    ensures callSid != "" ==>
      var callId := FetchCallId(old(reg.incoming), old(reg.agent), callSid, remote);
      && (callId == "" ==> reg.incoming == old(reg.incoming) && r == DialAgent(None))
      && (callId != "" ==>
            && reg.incoming == old(reg.incoming).Set(callSid, CallMapping(callId, caller, "", now, false, "", []))
            && r == DialAgent(Some(WebhookUrl(appUrl, RecordingWebhookPath, callId))))
  {
    if callSid == "" {
      return IncomingMissingCallSid;
    }
    var callId := FetchCallId(reg.incoming, reg.agent, callSid, remote);
    if callId != "" {
      reg.incoming := reg.incoming.Set(callSid, CallMapping(callId, caller, "", now, false, "", []));
    }
    var callback := if callId != "" then Some(WebhookUrl(appUrl, RecordingWebhookPath, callId)) else None;
    return DialAgent(callback);
  }

  // ---------------------------------------------------------------------
  // agent_call

  /** An inbound call placed from `fromNumber`: a candidate for the agent leg. */
  predicate IsCandidate(items: map<string, CallMapping>, fromNumber: string, k: string) {
    k in items && items[k].fromNumber == fromNumber && !items[k].isOutgoing
  }

  /**
   * The candidate the agent leg is matched to: the most recent one, and
   * among equally recent ones the first in insertion order (the sort is
   * stable and descending).
   */
  function MostRecent(keys: seq<string>, items: map<string, CallMapping>, fromNumber: string): (r: Option<string>)
    ensures r.Some? ==> IsCandidate(items, fromNumber, r.value) && r.value in keys
  {
    if keys == [] then None
    else
      var rest := MostRecent(keys[1..], items, fromNumber);
      if IsCandidate(items, fromNumber, keys[0])
         && (rest.None? || items[keys[0]].timestamp >= items[rest.value].timestamp)
      then Some(keys[0])
      else rest
  }

  /** No match exactly when no entry is a candidate. */
  lemma {:induction false} MostRecentNone(keys: seq<string>, items: map<string, CallMapping>, fromNumber: string)
    ensures MostRecent(keys, items, fromNumber).None? <==>
      forall i | 0 <= i < |keys| :: !IsCandidate(items, fromNumber, keys[i])
  {
    if keys != [] {
      MostRecentNone(keys[1..], items, fromNumber);
      forall i | 1 <= i < |keys| ensures keys[i] == keys[1..][i - 1] { }
    }
  }

  /** The match is at least as recent as every candidate. */
  lemma {:induction false} MostRecentIsLatest(keys: seq<string>, items: map<string, CallMapping>, fromNumber: string)
    requires MostRecent(keys, items, fromNumber).Some?
    ensures forall i | 0 <= i < |keys| && IsCandidate(items, fromNumber, keys[i]) ::
      items[keys[i]].timestamp <= items[MostRecent(keys, items, fromNumber).value].timestamp
  {
    var r := MostRecent(keys, items, fromNumber).value;
    var rest := MostRecent(keys[1..], items, fromNumber);
    if rest.Some? {
      MostRecentIsLatest(keys[1..], items, fromNumber);
    } else {
      MostRecentNone(keys[1..], items, fromNumber);
    }
    forall i | 0 <= i < |keys| && IsCandidate(items, fromNumber, keys[i])
      ensures items[keys[i]].timestamp <= items[r].timestamp
    {
      if i > 0 {
        assert keys[i] == keys[1..][i - 1];
      }
    }
  }

  /** Every candidate inserted before the match is strictly older. */
  lemma {:induction false} MostRecentIsFirstLatest(keys: seq<string>, items: map<string, CallMapping>,
                                                   fromNumber: string, j: int)
    requires 0 <= j < |keys| && MostRecent(keys, items, fromNumber) == Some(keys[j])
    requires forall a, b | 0 <= a < b < |keys| :: keys[a] != keys[b]
    ensures forall i | 0 <= i < j && IsCandidate(items, fromNumber, keys[i]) ::
      items[keys[i]].timestamp < items[keys[j]].timestamp
  {
    var rest := MostRecent(keys[1..], items, fromNumber);
    if j > 0 {
      assert keys[0] != keys[j];
      assert rest == Some(keys[1..][j - 1]);
      MostRecentIsFirstLatest(keys[1..], items, fromNumber, j - 1);
      forall i | 0 <= i < j && IsCandidate(items, fromNumber, keys[i])
        ensures items[keys[i]].timestamp < items[keys[j]].timestamp
      {
        if i > 0 {
          assert keys[i] == keys[1..][i - 1];
        }
      }
    }
  }

  /**
   * The media-stream URL handed to the agent leg: the domain of the
   * configured service URL, or the request's host when none is configured.
   */
  function AgentStreamUrl(serviceUrl: string, requestHost: string, callId: string): string {
    var domain := if serviceUrl != "" then ExtractDomainFromUrl(serviceUrl) else requestHost;
    MediaStreamUrl(GetWebsocketProtocol(domain), domain, callId)
  }

  /** With a service URL configured, the agent leg's URL is the one `build_media_stream_url` builds. */
  lemma AgentStreamUrlIsBuilt(serviceUrl: string, requestHost: string, callId: string, configured: string)
    requires serviceUrl != ""
    ensures BuildMediaStreamUrl(callId, serviceUrl, configured) == Success(AgentStreamUrl(serviceUrl, requestHost, callId))
  {
    var clean := ExtractDomainFromUrl(serviceUrl);
    MediaStreamUrlShape(GetWebsocketProtocol(clean), clean, callId);
  }

  datatype AgentReply =
    /** Connect the leg to the media stream at `url`. */
    | ConnectStream(url: string)
    /** No call to attach the leg to: hang up. */
    | Hangup
    /** 400 "Error: CallSid missing" */
    | AgentMissingCallSid

  /**
   * `agent_call`: match the agent leg to the caller's most recent inbound
   * call and link the two sids, or fall back to the remote lookup `remote`;
   * hang up when neither yields a call id.
   */
  method AgentCall(reg: Registry, callSid: string, fromNumber: string, remote: string,
                   serviceUrl: string, requestHost: string)
    returns (r: AgentReply)
    requires reg.Valid()
    modifies reg
    ensures reg.Valid()
    ensures reg.active == old(reg.active) && reg.incoming == old(reg.incoming)
    ensures r == AgentMissingCallSid <==> callSid == ""
    ensures callSid == "" ==> reg.agent == old(reg.agent)
    ensures callSid != "" ==>
      var best := MostRecent(reg.incoming.keys, reg.incoming.items, fromNumber);
      && (best.Some? ==>
            && reg.agent == old(reg.agent).Set(callSid, best.value)
            && r == ConnectStream(AgentStreamUrl(serviceUrl, requestHost, reg.incoming.items[best.value].callId)))
      && (best.None? ==>
            var callId := FetchCallId(reg.incoming, old(reg.agent), callSid, remote);
            && reg.agent == old(reg.agent)
            && (callId == "" ==> r == Hangup)
            && (callId != "" ==> r == ConnectStream(AgentStreamUrl(serviceUrl, requestHost, callId))))
  {
    if callSid == "" {
      return AgentMissingCallSid;
    }
    var callId: string;
    var best := MostRecent(reg.incoming.keys, reg.incoming.items, fromNumber);
    if best.Some? {
      callId := reg.incoming.items[best.value].callId;
      reg.agent := reg.agent.Set(callSid, best.value);
    } else {
      callId := FetchCallId(reg.incoming, reg.agent, callSid, remote);
      if callId == "" {
        return Hangup;
      }
    }
    return ConnectStream(AgentStreamUrl(serviceUrl, requestHost, callId));
  }

  // ---------------------------------------------------------------------
  // initiate_ai_call

  datatype InitiateError =
    /** 500 "Twilio not configured" */
    | TelephonyNotConfigured
    /** 400 "callId and toPhone are required" */
    | MissingCallFields
    /** 400: the destination is a client identifier, not a phone number */
    | ClientIdentifier
    /** 400: the destination is not in E.164 form */
    | NotE164
    /** 400 "Invalid call_id format" */
    | InvalidCallId
    /** 500: the telephony provider refused to create the call */
    | CreateFailed
  {
    function HttpStatus(): int {
      if this == TelephonyNotConfigured || this == CreateFailed then 500 else 400
    }
  }

  /** The request checks of `initiate_ai_call`, in the order they are made. */
  function RequestError(configured: bool, callId: string, toPhone: string): (e: Option<InitiateError>)
    ensures e.None? <==>
      configured && callId != "" && toPhone != "" && StartsWith(toPhone, "+") && ValidateCallId(callId)
  {
    if !configured then Some(TelephonyNotConfigured)
    else if callId == "" || toPhone == "" then Some(MissingCallFields)
    else if StartsWith(toPhone, "client:") then
      assert toPhone[0] == "client:"[0];
      Some(ClientIdentifier)
    else if !StartsWith(toPhone, "+") then Some(NotE164)
    else if !ValidateCallId(callId) then Some(InvalidCallId)
    else None
  }

  /** A client identifier is refused as such, never reported as a missing `+`. */
  lemma ClientIdentifierReported(callId: string, toPhone: string)
    requires callId != "" && StartsWith(toPhone, "client:")
    ensures RequestError(true, callId, toPhone) == Some(ClientIdentifier)
  {
  }

  /** The outbound stream URL: always `wss`, on the configured service domain. */
  function OutboundStreamUrl(serviceUrl: string, callId: string): (url: string)
    ensures StartsWith(url, "wss://")
    ensures '\n' !in url && '\r' !in url
  {
    var domain := ExtractDomainFromUrl(serviceUrl);
    WssMediaStreamUrl(domain, callId);
    MediaStreamUrl("wss", domain, callId)
  }

  /** The mapping stored under the call id: the only one that carries the telephony sid. */
  function OutboundIdEntry(callId: string, sid: string, twilioPhone: string, toPhone: string, now: int,
                           prompts: seq<string>): CallMapping {
    CallMapping(callId, twilioPhone, toPhone, now, true, sid, prompts)
  }

  /** The mapping stored under the telephony sid. */
  function OutboundSidEntry(callId: string, twilioPhone: string, toPhone: string, now: int,
                            prompts: seq<string>): CallMapping {
    CallMapping(callId, twilioPhone, toPhone, now, true, "", prompts)
  }

  /** The call the provider is asked to place: from, to, the stream URL of its TwiML, the recording callback. */
  datatype CallRequest = CallRequest(fromPhone: string, toPhone: string, streamUrl: string, recordingCallback: string)

  /**
   * `initiate_ai_call`: validate the request, ask the provider to place the
   * call (`placed`; `createdSid` is the sid the provider returns, None when
   * creation fails), record it under both its call id and its sid, and
   * store the sid on the call record with status RINGING (`recorded`). The
   * mappings record the service's own number as the caller, whatever
   * `fromPhone` the call is placed from.
   */
  method InitiateAiCall(reg: Registry, configured: bool, callId: string, fromPhone: string, toPhone: string,
                        prompts: seq<string>, serviceUrl: string, appUrl: string, twilioPhone: string,
                        createdSid: Option<string>, now: int)
    returns (r: Result<string, InitiateError>, placed: Option<CallRequest>, recorded: seq<CollabCall>)
    requires reg.Valid()
    modifies reg
    ensures reg.Valid()
    ensures reg.active == old(reg.active) && reg.agent == old(reg.agent)
    ensures placed.Some? <==> RequestError(configured, callId, toPhone).None?
    ensures placed.Some? ==> placed.value == CallRequest(fromPhone, toPhone, OutboundStreamUrl(serviceUrl, callId),
                                                         WebhookUrl(appUrl, RecordingWebhookPath, callId))
    ensures r.Failure? ==> recorded == []
    ensures RequestError(configured, callId, toPhone).Some? ==>
      r == Failure(RequestError(configured, callId, toPhone).value) && reg.incoming == old(reg.incoming)
    ensures RequestError(configured, callId, toPhone).None? && createdSid.None? ==>
      r == Failure(CreateFailed) && reg.incoming == old(reg.incoming)
    ensures RequestError(configured, callId, toPhone).None? && createdSid.Some? ==>
      var sid := createdSid.value;
      && r == Success(sid)
      && recorded == [PutCallRecord(callId, sid, Ringing)]
      && reg.incoming == old(reg.incoming)
           .Set(callId, OutboundIdEntry(callId, sid, twilioPhone, toPhone, now, prompts))
           .Set(sid, OutboundSidEntry(callId, twilioPhone, toPhone, now, prompts))
  {
    var err := RequestError(configured, callId, toPhone);
    if err.Some? {
      return Failure(err.value), None, [];
    }
    placed := Some(CallRequest(fromPhone, toPhone, OutboundStreamUrl(serviceUrl, callId),
                               WebhookUrl(appUrl, RecordingWebhookPath, callId)));
    if createdSid.None? {
      return Failure(CreateFailed), placed, [];
    }
    StoreOutboundMappings(reg, callId, createdSid.value, twilioPhone, toPhone, now, prompts);
    r := Success(createdSid.value);
    recorded := [PutCallRecord(callId, createdSid.value, Ringing)];
  }

  /** Record a placed outbound call under its call id, then under its telephony sid. */
  method StoreOutboundMappings(reg: Registry, callId: string, sid: string, twilioPhone: string, toPhone: string,
                               now: int, prompts: seq<string>)
    requires reg.Valid() && callId != ""
    modifies reg
    ensures reg.Valid()
    ensures reg.active == old(reg.active) && reg.agent == old(reg.agent)
    ensures reg.incoming == old(reg.incoming)
      .Set(callId, OutboundIdEntry(callId, sid, twilioPhone, toPhone, now, prompts))
      .Set(sid, OutboundSidEntry(callId, twilioPhone, toPhone, now, prompts))
  {
    var byId := reg.incoming.Set(callId, OutboundIdEntry(callId, sid, twilioPhone, toPhone, now, prompts));
    var bySid := byId.Set(sid, OutboundSidEntry(callId, twilioPhone, toPhone, now, prompts));
    reg.incoming := bySid;
  }

  /**
   * After an outbound call is recorded, both its call id and its telephony
   * sid resolve locally to the call id, and neither entry is a candidate
   * for an agent leg.
   */
  lemma OutboundMappingsResolve(incoming: Dict<string, CallMapping>, agent: Dict<string, string>,
                                callId: string, sid: string, twilioPhone: string, toPhone: string, now: int,
                                prompts: seq<string>, remote: string, fromNumber: string)
    requires incoming.Valid() && callId != ""
    ensures var after := incoming.Set(callId, OutboundIdEntry(callId, sid, twilioPhone, toPhone, now, prompts))
                                 .Set(sid, OutboundSidEntry(callId, twilioPhone, toPhone, now, prompts));
      && FetchCallId(after, agent, callId, remote) == callId
      && FetchCallId(after, agent, sid, remote) == callId
      && !IsCandidate(after.items, fromNumber, callId)
      && !IsCandidate(after.items, fromNumber, sid)
  {
  }
}
