/**
 * The media-stream bridge (handlers/media_stream.py): one per telephony
 * media-stream WebSocket. It opens a speech-backend socket, registers it
 * for the administrator endpoints, then runs two loops side by side: the
 * telephony loop forwards caller audio to the backend, the backend loop
 * forwards synthesized audio to the telephony side, handles barge-in and
 * posts transcripts. When both loops are over the bridge cleans up the
 * registry and reports the call as completed with a compiled transcript.
 *
 * The two loops are modelled as one merged sequence of events; each event
 * is handled atomically. Frames sent to the telephony side, requests to the
 * record-keeping API and calls to the mapping clean-up are recorded in
 * order; answers of the record-keeping API are parameters.
 */
module MediaStream {
  import opened Wrappers
  import opened Strings
  import opened PyDict
  import opened Constants
  import opened CallUtils
  import opened OpenAIService
  import opened State
  import opened NextjsClient
  import opened TranscriptUtils
  import opened FinalTranscript

  // ---------------------------------------------------------------------
  // Events and outputs

  /** A frame read by the telephony loop. */
  datatype TwilioEvent =
    /**
     * `connected`; `callSid` is "" when the frame carries none, and `lookup`
     * is what the remote call-id lookup answers for it.
     */
    | Connected(callSid: string, lookup: string)
    | Media(timestamp: int, payload: string)
    | Start(streamSid: string)
    | Stop
    | OtherTwilioEvent

  /** A message read by the backend loop. */
  datatype BackendEvent =
    /** `response.audio.delta`; "" for a missing delta or item id */
    | AudioDelta(delta: string, itemId: string)
    /** `input_audio_buffer.speech_started` */
    | SpeechStarted
    /** `conversation.item.input_audio_transcription.completed` */
    | CallerTranscript(transcript: string)
    /** `response.audio_transcript.done` */
    | AiTranscript(transcript: string)
    /** `response.text.done` */
    | AiText(text: string)
    | OtherBackendEvent
    /** the backend closed the socket: the loop's iteration ends */
    | BackendClosed

  /** One step of the merged trace of both loops. */
  datatype BridgeEvent =
    /**
     * The telephony loop reads its next frame. Once the telephony peer has
     * closed the socket, the read raises a disconnect instead and the frame
     * is never seen.
     */
    | TwilioRead(twilio: TwilioEvent)
    /** The telephony peer closes its socket. */
    | TwilioPeerClosed
    | BackendRead(backendEvent: BackendEvent)

  /** A frame sent to the telephony side. */
  datatype TwilioFrame =
    | MediaFrame(streamSid: string, payload: string)
    /** `clear`; the stream sid is sent as null before a `start` frame */
    | ClearFrame(clearSid: Option<string>)

  /** `cleanup_call_mappings(callSid, agentCallSid)`; "" stands for None. */
  datatype CleanupRequest = CleanupRequest(callSid: string, agentCallSid: string)

  /** The bridge's variables, for stating what a step changes. */
  datatype BridgeState = BridgeState(
    streamSid: Option<string>,
    latestTs: int,
    responseStartTs: Option<int>,
    lastItem: string,
    callId: string,
    actualCallSid: string,
    twilioOpen: bool,
    twilioDone: bool,
    backendDone: bool,
    toTwilio: seq<TwilioFrame>,
    collab: seq<CollabCall>,
    cleanups: seq<CleanupRequest>)

  // ---------------------------------------------------------------------
  // Set-up

  /** The initial prompts stored for the path's sid or call id. */
  function PathPrompts(incoming: Dict<string, CallMapping>, pathSid: string): seq<string> {
    if pathSid in incoming.items then incoming.items[pathSid].initialPrompts else []
  }

  /** The path carries a record id directly, or a sid whose call id is looked up. */
  function SetupCallId(incoming: Dict<string, CallMapping>, agent: Dict<string, string>,
                       pathSid: string, lookup: string): string
  {
    if IsPrismaCallId(pathSid) then pathSid else FetchCallId(incoming, agent, pathSid, lookup)
  }

  /**
   * The requests issued before the loops start: the IN_PROGRESS update
   * stamped with the answer time, then the initial prompts not yet recorded.
   */
  function SetupCalls(callId: string, prompts: seq<string>, statusDetails: Option<CallDetails>,
                      existing: seq<TranscriptEntry>, now: int): (r: seq<CollabCall>)
    ensures callId == "" <==> r == []
    ensures forall i | 0 <= i < |r| :: r[i].callId == callId
    ensures callId != "" ==>
      var n := |UpdateCallStatus(callId, InProgress, now, 0, statusDetails)|;
      && |r| == n + |PromptsToSend(prompts, existing)|
      && r[n - 1] == PatchStatus(callId, StatusPayload(InProgress, IfTruthy(now), None, None))
      && forall i | n <= i < |r| :: r[i] == PostTranscript(callId, PromptsToSend(prompts, existing)[i - n], SpeakerAdmin)
  {
    if callId == "" then []
    else UpdateCallStatus(callId, InProgress, now, 0, statusDetails) + AdminPosts(callId, PromptsToSend(prompts, existing))
  }

  /**
   * The set-up requests as the handler issues them: the status update, then
   * `check_and_send_initial_prompts` when the path has prompts.
   */
  method SetupRequests(callId: string, prompts: seq<string>, statusDetails: Option<CallDetails>,
                       existing: seq<TranscriptEntry>, now: int) returns (calls: seq<CollabCall>)
    ensures calls == SetupCalls(callId, prompts, statusDetails, existing, now)
  {
    calls := [];
    if callId != "" {
      calls := UpdateCallStatus(callId, InProgress, now, 0, statusDetails);
      if prompts != [] {
        var _, sends := CheckAndSendInitialPrompts(callId, prompts, existing, false);
        calls := calls + sends;
      } else {
        assert PromptsToSend(prompts, existing) == [];
      }
    }
  }

  /** Connecting to the backend failed: the call is reported FAILED if its id can be found. */
  function ConnectFailureCalls(incoming: Dict<string, CallMapping>, agent: Dict<string, string>,
                               pathSid: string, lookup: string): (r: seq<CollabCall>)
    ensures |r| <= 1
    ensures r != [] <==> FetchCallId(incoming, agent, pathSid, lookup) != ""
    ensures r != [] ==> r[0] == PatchStatus(FetchCallId(incoming, agent, pathSid, lookup),
                                            StatusPayload(Failed, None, None, None))
  {
    UpdateCallStatus(FetchCallId(incoming, agent, pathSid, lookup), Failed, 0, 0, None)
  }

  // ---------------------------------------------------------------------
  // The `connected` frame

  /**
   * The prompt branch of the `connected` handler reads `initial_prompts_sent`,
   * a local of the telephony loop that is never assigned before the read, so
   * it raises UnboundLocalError: a new sid with stored prompts and a known
   * call id.
   */
  predicate PromptBranchRaises(incoming: Dict<string, CallMapping>, pathSid: string, callId: string, sid: string) {
    sid != "" && sid != pathSid && sid in incoming.items && incoming.items[sid].initialPrompts != [] && callId != ""
  }

  /** The initial prompts stored for a `connected` frame's sid, when it names another call than the path. */
  function SidPrompts(incoming: Dict<string, CallMapping>, pathSid: string, sid: string): seq<string> {
    if sid != "" && sid != pathSid && sid in incoming.items then incoming.items[sid].initialPrompts else []
  }

  /** The call id after a `connected` frame: looked up by the frame's sid when still unknown. */
  function CallIdAfterConnected(incoming: Dict<string, CallMapping>, agent: Dict<string, string>,
                                callId: string, sid: string, lookup: string): string
  {
    if sid != "" && callId == "" then FetchCallId(incoming, agent, sid, lookup) else callId
  }

  /**
   * Does the `connected` handler raise? Either the prompt branch raises, or
   * a call id is found for the frame's sid and the next statement reads the
   * unassigned locals `initial_prompts` / `initial_prompts_sent`.
   */
  predicate ConnectedRaises(incoming: Dict<string, CallMapping>, agent: Dict<string, string>,
                            pathSid: string, callId: string, sid: string, lookup: string)
  {
    || PromptBranchRaises(incoming, pathSid, callId, sid)
    || (sid != "" && callId == "" && FetchCallId(incoming, agent, sid, lookup) != "")
  }

  /** The connection registry after a `connected` frame: re-keyed under the frame's sid unless the handler raised. */
  function ActiveAfterConnected(active: map<string, BackendSocket>, pathSid: string, sid: string, raises: bool)
    : (r: map<string, BackendSocket>)
    ensures "" !in active && sid != "" ==> "" !in r
    ensures !raises && sid != "" && sid != pathSid && pathSid in active ==>
      && sid in r && r[sid] == active[pathSid] && pathSid !in r
      && forall k | k in active && k != pathSid && k != sid :: k in r && r[k] == active[k]
  {
    if !raises && sid != "" && sid != pathSid && pathSid in active then (active - {pathSid})[sid := active[pathSid]]
    else active
  }

  // ---------------------------------------------------------------------
  // Teardown

  /** The sid the call is cleaned up under: the telephony sid when one was seen. */
  function CleanupSid(actualCallSid: string, pathSid: string): string {
    if actualCallSid != "" then actualCallSid else pathSid
  }

  /** The original call an agent leg belongs to (itself otherwise). */
  function OriginalCallSid(agent: Dict<string, string>, sid: string): string {
    if sid in agent.items then agent.items[sid] else sid
  }

  /** The clean-up calls: the original call with its agent leg, then the path key if it is neither. */
  function CleanupRequests(agent: Dict<string, string>, pathSid: string, sid: string): (r: seq<CleanupRequest>)
    ensures 1 <= |r| <= 2
  {
    var original := OriginalCallSid(agent, sid);
    [CleanupRequest(original, if sid != original then sid else "")]
      + (if pathSid != sid && pathSid != original then [CleanupRequest(pathSid, "")] else [])
  }

  /** Every key the bridge was known under is handed to the clean-up, as a call or as its agent leg. */
  lemma CleanupCoversBothKeys(agent: Dict<string, string>, pathSid: string, sid: string)
    ensures exists i | 0 <= i < |CleanupRequests(agent, pathSid, sid)| ::
      CleanupRequests(agent, pathSid, sid)[i].callSid == sid || CleanupRequests(agent, pathSid, sid)[i].agentCallSid == sid
    ensures exists i | 0 <= i < |CleanupRequests(agent, pathSid, sid)| ::
      CleanupRequests(agent, pathSid, sid)[i].callSid == pathSid || CleanupRequests(agent, pathSid, sid)[i].agentCallSid == pathSid
  {
    var r := CleanupRequests(agent, pathSid, sid);
    var original := OriginalCallSid(agent, sid);
    assert r[0].callSid == sid || r[0].agentCallSid == sid;
    if pathSid != sid && pathSid != original {
      assert r[1].callSid == pathSid;
    } else if pathSid == sid {
      assert r[0].callSid == pathSid || r[0].agentCallSid == pathSid;
    } else {
      assert r[0].callSid == pathSid;
    }
  }

  /** The compiled transcript, when the fetched record holds any transcript entries. */
  function MetadataCalls(callId: string, details: Option<CallDetails>): (r: seq<CollabCall>)
    ensures |r| <= 1
    ensures r != [] <==> details.Some? && details.value.transcripts != []
    ensures r != [] ==> r[0] == PatchMetadata(callId, FinalTranscription(
      FinalTranscriptionText(details.value.initialPrompts, details.value.transcripts),
      |details.value.transcripts|))
  {
    if details.Some? && details.value.transcripts != [] then
      [PatchMetadata(callId, FinalTranscription(
        FinalTranscriptionText(details.value.initialPrompts, details.value.transcripts),
        |details.value.transcripts|))]
    else []
  }

  /**
   * The requests issued at the end of a call with a known id: the compiled
   * transcript if there is one, then the COMPLETED update stamped with the
   * end time, always last.
   */
  function CompletionCalls(callId: string, details: Option<CallDetails>, completionDetails: Option<CallDetails>,
                           now: int): (r: seq<CollabCall>)
    ensures callId == "" <==> r == []
    ensures forall i | 0 <= i < |r| :: r[i].callId == callId
    ensures callId != "" ==>
      && r[|r| - 1] == PatchStatus(callId, StatusPayload(Completed, None, IfTruthy(now),
                                                         Duration(Completed, now, completionDetails)))
      && r[..|r| - 1] == MetadataCalls(callId, details)
  {
    if callId == "" then []
    else MetadataCalls(callId, details) + UpdateCallStatus(callId, Completed, 0, now, completionDetails)
  }

  // ---------------------------------------------------------------------
  // The bridge

  /**
   * No audio frame goes out before a stream sid is known, and none without
   * a stream sid or payload.
   */
  predicate FramesOk(streamSid: Option<string>, frames: seq<TwilioFrame>) {
    && (streamSid.None? ==> forall i | 0 <= i < |frames| :: !frames[i].MediaFrame?)
    && (forall i | 0 <= i < |frames| :: frames[i].MediaFrame? ==> frames[i].streamSid != "" && frames[i].payload != "")
  }

  /** Sending one more acceptable frame keeps the frames acceptable. */
  lemma FramesOkAppend(streamSid: Option<string>, frames: seq<TwilioFrame>, f: TwilioFrame)
    requires FramesOk(streamSid, frames)
    requires f.MediaFrame? ==> streamSid.Some? && f.streamSid != "" && f.payload != ""
    ensures FramesOk(streamSid, frames + [f])
  {
    var r := frames + [f];
    forall i | 0 <= i < |r| ensures r[i] == (if i < |frames| then frames[i] else f) { }
  }

  // ---------------------------------------------------------------------
  // The bridge as a state machine

  /** The bridge's variables, with its backend socket's state and the registry's connections. */
  datatype World = World(s: BridgeState, open: bool, sent: seq<BackendMsg>, active: map<string, BackendSocket>)

  /** What a bridge reads but never changes: the call mappings and its path key. */
  datatype Env = Env(incoming: Dict<string, CallMapping>, agent: Dict<string, string>, pathSid: string)

  /** The telephony loop ends after closing the backend. */
  function EndLoop(w: World): World {
    w.(s := w.s.(twilioDone := true), open := false)
  }

  /** One read of the telephony loop while it runs. */
  function TwilioStep(w: World, env: Env, e: TwilioEvent): World {
    if !w.s.twilioOpen then EndLoop(w)
    else match e
      case Connected(sid, lookup) =>
        var raises := ConnectedRaises(env.incoming, env.agent, env.pathSid, w.s.callId, sid, lookup);
        World(w.s.(actualCallSid := sid, twilioDone := raises,
                   callId := CallIdAfterConnected(env.incoming, env.agent, w.s.callId, sid, lookup)),
              w.open && !raises, w.sent, ActiveAfterConnected(w.active, env.pathSid, sid, raises))
      case Media(ts, payload) =>
        if w.open then w.(s := w.s.(latestTs := ts), sent := w.sent + [AudioAppend(payload)]) else w
      case Start(sid) => w.(s := w.s.(streamSid := Some(sid)))
      case Stop => EndLoop(w)
      case OtherTwilioEvent => w
  }

  /** Is an audio delta forwarded to the telephony side? */
  predicate ForwardsDelta(s: BridgeState, delta: string) {
    delta != "" && s.streamSid.Some? && s.streamSid.value != ""
  }

  /** The truncation a barge-in sends: only while a response with a known item is playing. */
  function BargeIn(s: BridgeState): seq<BackendMsg> {
    if s.lastItem != "" && s.responseStartTs.Some? then [Truncate(s.lastItem, 0, s.latestTs - s.responseStartTs.value)]
    else []
  }

  /** One read of the backend loop while it runs; a closed socket ends it. */
  function BackendStep(w: World, e: BackendEvent): World {
    if !w.open then w.(s := w.s.(backendDone := true))
    else match e
      case AudioDelta(delta, itemId) =>
        if ForwardsDelta(w.s, delta) && !w.s.twilioOpen then w.(s := w.s.(backendDone := true))
        else w.(s := w.s.(
          toTwilio := w.s.toTwilio + (if ForwardsDelta(w.s, delta) then [MediaFrame(w.s.streamSid.value, delta)] else []),
          responseStartTs := if w.s.responseStartTs.None? then Some(w.s.latestTs) else w.s.responseStartTs,
          lastItem := if itemId != "" then itemId else w.s.lastItem))
      case SpeechStarted =>
        w.(s := w.s.(toTwilio := w.s.toTwilio + (if w.s.twilioOpen then [ClearFrame(w.s.streamSid)] else []),
                     lastItem := "", responseStartTs := None),
           sent := w.sent + BargeIn(w.s))
      case CallerTranscript(t) => w.(s := w.s.(collab := w.s.collab + Requests(SendTranscript(w.s.callId, t, SpeakerCaller))))
      case AiTranscript(t) => w.(s := w.s.(collab := w.s.collab + Requests(SendTranscript(w.s.callId, t, SpeakerAi))))
      case AiText(text) => w.(s := w.s.(collab := w.s.collab + Requests(SendTranscript(w.s.callId, text, SpeakerAi))))
      case OtherBackendEvent => w
      case BackendClosed => w.(s := w.s.(backendDone := true), open := false)
  }

  /** One event of the merged trace; a loop that has ended ignores its events. */
  function Next(w: World, env: Env, e: BridgeEvent): World {
    match e
    case TwilioRead(t) => if w.s.twilioDone then w else TwilioStep(w, env, t)
    case TwilioPeerClosed => w.(s := w.s.(twilioOpen := false))
    case BackendRead(b) => if w.s.backendDone then w else BackendStep(w, b)
  }

  /** The state after a whole trace. */
  function Trace(w: World, env: Env, events: seq<BridgeEvent>): World
    decreases |events|
  {
    if events == [] then w
    else Next(Trace(w, env, events[..|events| - 1]), env, events[|events| - 1])
  }

  /** The payloads of the trace's media frames, in order. */
  function MediaPayloads(events: seq<BridgeEvent>): seq<string>
    decreases |events|
  {
    if events == [] then []
    else
      var e := events[|events| - 1];
      MediaPayloads(events[..|events| - 1]) + (if e.TwilioRead? && e.twilio.Media? then [e.twilio.payload] else [])
  }

  /**
   * The payloads of the media frames read while the backend was open and
   * the telephony loop running, in trace order.
   */
  function Forwarded(w: World, env: Env, events: seq<BridgeEvent>): seq<string>
    decreases |events|
  {
    if events == [] then []
    else
      var pre := Trace(w, env, events[..|events| - 1]);
      var e := events[|events| - 1];
      Forwarded(w, env, events[..|events| - 1]) +
        (if e.TwilioRead? && e.twilio.Media? && pre.open && !pre.s.twilioDone && pre.s.twilioOpen
         then [e.twilio.payload] else [])
  }

  /** The audio payloads among messages sent to the backend, in order. */
  function AudioOf(msgs: seq<BackendMsg>): seq<string>
    decreases |msgs|
  {
    if msgs == [] then []
    else AudioOf(msgs[..|msgs| - 1]) + (if msgs[|msgs| - 1].AudioAppend? then [msgs[|msgs| - 1].audio] else [])
  }

  class Bridge {
    /** the path parameter: a call sid or a record id */
    const pathSid: string
    const backend: BackendSocket
    const reg: Registry

    var streamSid: Option<string>
    var latestTs: int
    var responseStartTs: Option<int>
    /** "" for None */
    var lastItem: string
    /** "" for None */
    var callId: string
    /** the sid of the `connected` frame, "" for None */
    var actualCallSid: string
    /** the telephony socket is still open */
    var twilioOpen: bool
    /** the telephony loop has ended */
    var twilioDone: bool
    /** the backend loop has ended */
    var backendDone: bool

    var toTwilio: seq<TwilioFrame>
    var collab: seq<CollabCall>
    var cleanups: seq<CleanupRequest>

    ghost function Snapshot(): BridgeState
      reads this
    {
      BridgeState(streamSid, latestTs, responseStartTs, lastItem, callId, actualCallSid,
                  twilioOpen, twilioDone, backendDone, toTwilio, collab, cleanups)
    }

    /** The bridge's state with its backend socket and the registry's connections. */
    ghost function Observe(): World
      reads this, backend, reg
    {
      World(Snapshot(), backend.open, backend.sent, reg.active)
    }

    ghost function Environment(): Env
      reads this, reg
    {
      Env(reg.incoming, reg.agent, pathSid)
    }

    /**
     * The registry stays well formed; once the telephony loop has ended the
     * backend socket is closed; no audio goes out before a stream sid is
     * known, and none without payload or stream sid; every record-keeping
     * request is about the bridge's one call, and none is issued while its
     * id is unknown.
     */
    ghost predicate Valid()
      reads this, backend, reg
    {
      && pathSid != ""
      && reg.Valid()
      && (twilioDone ==> !backend.open)
      && FramesOk(streamSid, toTwilio)
      && (forall i | 0 <= i < |collab| :: collab[i].callId == callId)
      && (callId == "" ==> collab == [])
    }

    /**
     * Set-up after the backend socket `ws` is open: register it under the
     * path key, find the call id, report IN_PROGRESS and post the initial
     * prompts not yet recorded. `lookup` is the remote call-id lookup's
     * answer, `statusDetails` the call record fetched by the status update,
     * `existing` the recorded transcript entries and `now` the clock.
     */
    constructor (reg: Registry, pathSid: string, ws: BackendSocket, prompts: seq<string>, lookup: string,
                 statusDetails: Option<CallDetails>, existing: seq<TranscriptEntry>, now: int)
      requires reg.Valid() && pathSid != "" && ws.open
      modifies reg
      ensures Valid()
      ensures this.reg == reg && this.pathSid == pathSid && backend == ws
      ensures reg.active == old(reg.active)[pathSid := ws]
      ensures reg.incoming == old(reg.incoming) && reg.agent == old(reg.agent)
      ensures callId == SetupCallId(reg.incoming, reg.agent, pathSid, lookup)
      ensures Snapshot() == BridgeState(None, 0, None, "", callId, "", true, false, false, [],
                                        SetupCalls(callId, prompts, statusDetails, existing, now), [])
    {
      var id := SetupCallId(reg.incoming, reg.agent, pathSid, lookup);
      var calls := SetupRequests(id, prompts, statusDetails, existing, now);
      reg.active := reg.active[pathSid := ws];
      this.pathSid := pathSid;
      backend := ws;
      this.reg := reg;
      streamSid := None;
      latestTs := 0;
      responseStartTs := None;
      lastItem := "";
      callId := id;
      actualCallSid := "";
      twilioOpen := true;
      twilioDone := false;
      backendDone := false;
      toTwilio := [];
      collab := calls;
      cleanups := [];
    }

    // -------------------------------------------------------------------
    // The telephony loop

    /**
     * `connected`: record the frame's sid, look up a still unknown call id
     * by it, and move the registry entry from the path key to that sid. As
     * written the handler raises whenever it would post prompts or find the
     * call id (see `ConnectedRaises`); the raise is caught, the backend is
     * closed and the telephony loop ends, before the registry is re-keyed.
     */
    method OnConnected(sid: string, lookup: string)
      requires Valid() && !twilioDone && twilioOpen
      modifies this, backend, reg
      ensures Valid()
      ensures reg.incoming == old(reg.incoming) && reg.agent == old(reg.agent)
      ensures var raises := ConnectedRaises(reg.incoming, reg.agent, pathSid, old(callId), sid, lookup);
        && Snapshot() == old(Snapshot()).(actualCallSid := sid, twilioDone := raises,
             callId := CallIdAfterConnected(reg.incoming, reg.agent, old(callId), sid, lookup))
        && backend.sent == old(backend.sent)
        && backend.open == (old(backend.open) && !raises)
        && reg.active == ActiveAfterConnected(old(reg.active), pathSid, sid, raises)
    {
      actualCallSid := sid;
      var raises := PromptBranchRaises(reg.incoming, pathSid, callId, sid);
      if !raises && sid != "" && callId == "" {
        callId := FetchCallId(reg.incoming, reg.agent, sid, lookup);
        raises := callId != "";
      }
      if raises {
        EndTwilioLoop();
        return;
      }
      reg.active := ActiveAfterConnected(reg.active, pathSid, sid, false);
    }

    /**
     * The `connected` handler as intended, with `initial_prompts` and
     * `initial_prompts_sent` shared with the enclosing handler: they come in
     * as `prompts` and `promptsSent` and go out updated. Prompts stored for
     * the frame's sid replace the path's and are posted if the call id is
     * known; a call id found by the frame's sid gets the prompts not yet
     * posted, the sid stored on the call record and the IN_PROGRESS update;
     * and the registry entry always moves to the frame's sid. The record
     * update is `update_call_record(call_id, sid)`, its default status
     * RINGING included. `existing` is the fetched transcript list.
     */
    method OnConnectedIntended(sid: string, lookup: string, prompts: seq<string>, promptsSent: bool,
                               existing: seq<TranscriptEntry>, statusDetails: Option<CallDetails>, now: int)
      returns (promptsAfter: seq<string>, sentAfter: bool)
      requires Valid() && !twilioDone && twilioOpen
      requires callId != "" && prompts != [] ==> promptsSent
      modifies this, reg
      ensures Valid()
      ensures reg.incoming == old(reg.incoming) && reg.agent == old(reg.agent)
      ensures reg.active == ActiveAfterConnected(old(reg.active), pathSid, sid, false)
      ensures promptsAfter == if SidPrompts(reg.incoming, pathSid, sid) != [] then SidPrompts(reg.incoming, pathSid, sid) else prompts
      ensures callId != "" && promptsAfter != [] ==> sentAfter
      ensures promptsSent ==> sentAfter
      ensures Snapshot() == old(Snapshot()).(actualCallSid := sid, collab := collab,
                callId := CallIdAfterConnected(reg.incoming, reg.agent, old(callId), sid, lookup))
      ensures old(callId) != "" ==>
        collab == old(collab) +
          if SidPrompts(reg.incoming, pathSid, sid) != [] && !promptsSent
          then AdminPosts(old(callId), PromptsToSend(promptsAfter, existing)) else []
      ensures old(callId) == "" && callId != "" ==>
        collab ==
          (if promptsAfter != [] && !promptsSent then AdminPosts(callId, PromptsToSend(promptsAfter, existing)) else [])
          + [PutCallRecord(callId, sid, Ringing)] + UpdateCallStatus(callId, InProgress, now, 0, statusDetails)
      ensures old(callId) == "" && callId == "" ==> collab == old(collab)
    {
      actualCallSid := sid;
      promptsAfter, sentAfter := AdoptStoredPrompts(SidPrompts(reg.incoming, pathSid, sid), prompts, promptsSent, existing);
      if sid != "" && callId == "" {
        sentAfter := AdoptFoundCallId(sid, FetchCallId(reg.incoming, reg.agent, sid, lookup), promptsAfter, sentAfter,
                                      existing, statusDetails, now);
      }
      reg.active := ActiveAfterConnected(reg.active, pathSid, sid, false);
    }

    /** Prompts stored for the frame's sid replace the current ones, and are posted if the call id is known. */
    method AdoptStoredPrompts(stored: seq<string>, prompts: seq<string>, promptsSent: bool, existing: seq<TranscriptEntry>)
      returns (promptsAfter: seq<string>, sentAfter: bool)
      requires Valid()
      modifies this
      ensures Valid()
      ensures promptsAfter == if stored != [] then stored else prompts
      ensures sentAfter == (promptsSent || (stored != [] && callId != ""))
      ensures Snapshot() == old(Snapshot()).(collab := old(collab) +
        if stored != [] && callId != "" && !promptsSent then AdminPosts(callId, PromptsToSend(stored, existing)) else [])
    {
      promptsAfter, sentAfter := prompts, promptsSent;
      if stored != [] {
        promptsAfter := stored;
        if callId != "" && !sentAfter {
          PostPrompts(stored, existing);
          sentAfter := true;
        }
      }
    }

    /**
     * A call id looked up for the frame's sid: if found, it becomes the
     * call id, the prompts not yet posted are posted, and the call record is
     * updated.
     */
    method AdoptFoundCallId(sid: string, id: string, prompts: seq<string>, promptsSent: bool,
                            existing: seq<TranscriptEntry>, statusDetails: Option<CallDetails>, now: int)
      returns (sentAfter: bool)
      requires Valid() && callId == ""
      modifies this
      ensures Valid()
      ensures sentAfter == (promptsSent || (id != "" && prompts != []))
      ensures id == "" ==> Snapshot() == old(Snapshot())
      ensures id != "" ==> Snapshot() == old(Snapshot()).(callId := id, collab :=
        (if prompts != [] && !promptsSent then AdminPosts(id, PromptsToSend(prompts, existing)) else [])
        + [PutCallRecord(id, sid, Ringing)] + UpdateCallStatus(id, InProgress, now, 0, statusDetails))
    {
      sentAfter := promptsSent;
      if id != "" {
        callId := id;
        ghost var posts: seq<CollabCall> := [];
        if prompts != [] && !sentAfter {
          PostPrompts(prompts, existing);
          posts := AdminPosts(id, PromptsToSend(prompts, existing));
          sentAfter := true;
        }
        assert collab == posts;
        RecordFoundCall(sid, statusDetails, now);
      }
    }

    /** `check_and_send_initial_prompts` for the known call id. */
    method PostPrompts(ps: seq<string>, existing: seq<TranscriptEntry>)
      requires Valid() && callId != "" && ps != []
      modifies this
      ensures Valid()
      ensures Snapshot() == old(Snapshot()).(collab := old(collab) + AdminPosts(callId, PromptsToSend(ps, existing)))
    {
      var _, sends := CheckAndSendInitialPrompts(callId, ps, existing, false);
      collab := collab + sends;
    }

    /** A call id found on `connected`: store the sid on the call record and report IN_PROGRESS. */
    method RecordFoundCall(sid: string, statusDetails: Option<CallDetails>, now: int)
      requires Valid() && callId != ""
      modifies this
      ensures Valid()
      ensures Snapshot() == old(Snapshot()).(collab := old(collab) + [PutCallRecord(callId, sid, Ringing)]
                                                + UpdateCallStatus(callId, InProgress, now, 0, statusDetails))
    {
      collab := collab + [PutCallRecord(callId, sid, Ringing)] + UpdateCallStatus(callId, InProgress, now, 0, statusDetails);
    }

    /** `media`: while the backend is open, remember the timestamp and forward the payload. */
    method OnMedia(timestamp: int, payload: string)
      requires Valid() && !twilioDone && twilioOpen
      modifies this, backend
      ensures Valid()
      ensures backend.open == old(backend.open)
      ensures old(backend.open) ==>
        Snapshot() == old(Snapshot()).(latestTs := timestamp)
        && backend.sent == old(backend.sent) + [AudioAppend(payload)]
      ensures !old(backend.open) ==> Snapshot() == old(Snapshot()) && backend.sent == old(backend.sent)
    {
      if backend.open {
        latestTs := timestamp;
        backend.Send(AudioAppend(payload));
      }
    }

    /** `start`: the stream sid used by every later frame to the telephony side. */
    method OnStart(sid: string)
      requires Valid() && !twilioDone && twilioOpen
      modifies this
      ensures Valid()
      ensures Snapshot() == old(Snapshot()).(streamSid := Some(sid))
    {
      streamSid := Some(sid);
    }

    /** Close the backend if it is still open and end the telephony loop. */
    method EndTwilioLoop()
      requires Valid() && !twilioDone
      modifies this, backend
      ensures Valid()
      ensures !backend.open && backend.sent == old(backend.sent)
      ensures Snapshot() == old(Snapshot()).(twilioDone := true)
    {
      if backend.open {
        backend.Close();
      }
      twilioDone := true;
    }

    /** `stop`: close the backend and end the telephony loop. */
    method OnStop()
      requires Valid() && !twilioDone && twilioOpen
      modifies this, backend
      ensures Valid()
      ensures !backend.open && backend.sent == old(backend.sent)
      ensures Snapshot() == old(Snapshot()).(twilioDone := true)
    {
      EndTwilioLoop();
    }

    /** The telephony peer closes its socket; the loop notices at its next read. */
    method OnTwilioPeerClosed()
      requires Valid()
      modifies this
      ensures Valid()
      ensures Snapshot() == old(Snapshot()).(twilioOpen := false)
    {
      twilioOpen := false;
    }

    /** The read raises a disconnect: close the backend and end the telephony loop. */
    method OnTwilioDisconnect()
      requires Valid() && !twilioDone && !twilioOpen
      modifies this, backend
      ensures Valid()
      ensures !backend.open && backend.sent == old(backend.sent)
      ensures Snapshot() == old(Snapshot()).(twilioDone := true)
    {
      EndTwilioLoop();
    }

    /** One read of the telephony loop. */
    method OnTwilioRead(e: TwilioEvent)
      requires Valid() && !twilioDone
      modifies this, backend, reg
      ensures Valid()
      ensures reg.incoming == old(reg.incoming) && reg.agent == old(reg.agent)
      ensures Observe() == TwilioStep(old(Observe()), Environment(), e)
    {
      if !twilioOpen {
        OnTwilioDisconnect();
        return;
      }
      match e
      case Connected(sid, lookup) => OnConnected(sid, lookup);
      case Media(ts, payload) => OnMedia(ts, payload);
      case Start(sid) => OnStart(sid);
      case Stop => OnStop();
      case OtherTwilioEvent =>
    }

    // -------------------------------------------------------------------
    // The backend loop

    /**
     * `response.audio.delta`: forward the audio once a stream sid is known;
     * a send on the closed telephony socket ends the loop. Otherwise mark the
     * response's start on the first delta and remember its item.
     */
    method OnAudioDelta(delta: string, itemId: string)
      requires Valid() && !backendDone && backend.open
      modifies this
      ensures Valid()
      ensures var forward := delta != "" && old(streamSid).Some? && old(streamSid).value != "";
        && (forward && !twilioOpen ==> Snapshot() == old(Snapshot()).(backendDone := true))
        && (!forward || twilioOpen ==> Snapshot() == old(Snapshot()).(
              toTwilio := old(toTwilio) + (if forward then [MediaFrame(old(streamSid).value, delta)] else []),
              responseStartTs := if old(responseStartTs).None? then Some(old(latestTs)) else old(responseStartTs),
              lastItem := if itemId != "" then itemId else old(lastItem)))
    {
      var forward := delta != "" && streamSid.Some? && streamSid.value != "";
      if forward && !twilioOpen {
        backendDone := true;
        return;
      }
      if forward {
        var frame := MediaFrame(streamSid.value, delta);
        FramesOkAppend(streamSid, toTwilio, frame);
        toTwilio := toTwilio + [frame];
      }
      if responseStartTs.None? {
        responseStartTs := Some(latestTs);
      }
      if itemId != "" {
        lastItem := itemId;
      }
    }

    /**
     * `input_audio_buffer.speech_started` (the caller barges in): truncate
     * the response being played at the audio heard so far, tell the
     * telephony side to drop buffered audio, and forget the response.
     */
    method OnSpeechStarted()
      requires Valid() && !backendDone && backend.open
      modifies this, backend
      ensures Valid()
      ensures backend.open
      ensures backend.sent == old(backend.sent) +
        if old(lastItem) != "" && old(responseStartTs).Some? then
          [Truncate(old(lastItem), 0, old(latestTs) - old(responseStartTs).value)]
        else []
      ensures Snapshot() == old(Snapshot()).(
        toTwilio := old(toTwilio) + (if twilioOpen then [ClearFrame(old(streamSid))] else []),
        lastItem := "", responseStartTs := None)
    {
      if lastItem != "" && responseStartTs.Some? {
        var elapsed := latestTs - responseStartTs.value;
        backend.Send(Truncate(lastItem, 0, elapsed));
      }
      if twilioOpen {
        FramesOkAppend(streamSid, toTwilio, ClearFrame(streamSid));
        toTwilio := toTwilio + [ClearFrame(streamSid)];
      }
      lastItem := "";
      responseStartTs := None;
    }

    /**
     * A completed transcription (the caller's or the assistant's): posted
     * stripped under `speaker` when it is not blank and the call id is known.
     */
    method OnTranscript(transcript: string, speaker: string)
      requires Valid() && !backendDone
      modifies this
      ensures Valid()
      ensures Snapshot() == old(Snapshot()).(collab := old(collab) +
        if callId != "" && !IsBlank(transcript) then [PostTranscript(callId, Strip(transcript), speaker)] else [])
    {
      if transcript != "" && !IsBlank(transcript) && callId != "" {
        StripIdempotent(transcript);
        collab := collab + Requests(SendTranscript(callId, Strip(transcript), speaker));
      }
    }

    /**
     * `response.text.done`: the text is handed over unstripped, and
     * `send_transcript` strips it and drops it when blank.
     */
    method OnAiText(text: string)
      requires Valid() && !backendDone
      modifies this
      ensures Valid()
      ensures Snapshot() == old(Snapshot()).(collab := old(collab) +
        if callId != "" && !IsBlank(text) then [PostTranscript(callId, Strip(text), SpeakerAi)] else [])
    {
      if text != "" && callId != "" {
        collab := collab + Requests(SendTranscript(callId, text, SpeakerAi));
      }
    }

    /** One read of the backend loop; on a closed socket the loop ends. */
    method OnBackendRead(e: BackendEvent)
      requires Valid() && !backendDone
      modifies this, backend
      ensures Valid()
      ensures Observe() == BackendStep(old(Observe()), e)
    {
      if !backend.open {
        backendDone := true;
        return;
      }
      match e
      case AudioDelta(delta, itemId) => OnAudioDelta(delta, itemId);
      case SpeechStarted => OnSpeechStarted();
      case CallerTranscript(t) => OnTranscript(t, SpeakerCaller);
      case AiTranscript(t) => OnTranscript(t, SpeakerAi);
      case AiText(text) => OnAiText(text);
      case OtherBackendEvent =>
      case BackendClosed =>
        backend.Close();
        backendDone := true;
    }

    /**
     * Both loops over a merged trace: the bridge ends in the state `Trace`
     * gives, and keeps its invariant throughout.
     */
    method Run(events: seq<BridgeEvent>)
      requires Valid()
      modifies this, backend, reg
      ensures Valid()
      ensures reg.incoming == old(reg.incoming) && reg.agent == old(reg.agent)
      ensures Observe() == Trace(old(Observe()), Environment(), events)
    {
      var i := 0;
      while i < |events|
        invariant 0 <= i <= |events|
        invariant Valid()
        invariant reg.incoming == old(reg.incoming) && reg.agent == old(reg.agent)
        invariant Observe() == Trace(old(Observe()), Environment(), events[..i])
      {
        assert events[..i + 1][..i] == events[..i];
        match events[i] {
          case TwilioRead(e) =>
            if !twilioDone {
              OnTwilioRead(e);
            }
          case TwilioPeerClosed =>
            OnTwilioPeerClosed();
          case BackendRead(e) =>
            if !backendDone {
              OnBackendRead(e);
            }
        }
        i := i + 1;
      }
      assert events[..i] == events;
    }

    // -------------------------------------------------------------------
    // Teardown

    /**
     * After both loops: hand the call's keys to the mapping clean-up, drop
     * both registry keys, and for a known call id post the compiled
     * transcript and the COMPLETED update. `details` is the call record
     * fetched for the transcript, `completionDetails` the one fetched by the
     * status update, `now` the clock.
     */
    method Teardown(details: Option<CallDetails>, completionDetails: Option<CallDetails>, now: int)
      requires Valid() && twilioDone && backendDone
      modifies this, reg
      ensures Valid()
      ensures !backend.open && backend.sent == old(backend.sent)
      ensures reg.incoming == old(reg.incoming) && reg.agent == old(reg.agent)
      ensures reg.active == old(reg.active) - {CleanupSid(actualCallSid, pathSid), pathSid}
      ensures Snapshot() == old(Snapshot()).(
        cleanups := old(cleanups) + CleanupRequests(reg.agent, pathSid, CleanupSid(actualCallSid, pathSid)),
        collab := old(collab) + CompletionCalls(callId, details, completionDetails, now))
    {
      var sid := CleanupSid(actualCallSid, pathSid);
      cleanups := cleanups + CleanupRequests(reg.agent, pathSid, sid);
      reg.active := reg.active - {sid, pathSid};
      ReportCompletion(details, completionDetails, now);
    }

    /** The compiled transcript and the COMPLETED update, for a known call id. */
    method ReportCompletion(details: Option<CallDetails>, completionDetails: Option<CallDetails>, now: int)
      requires Valid()
      modifies this
      ensures Valid()
      ensures Snapshot() == old(Snapshot()).(collab := old(collab) + CompletionCalls(callId, details, completionDetails, now))
    {
      collab := collab + CompletionCalls(callId, details, completionDetails, now);
    }
  }

  /**
   * `handle_media_stream` up to the loops: connect to the backend with the
   * prompts stored for the path key. On failure nothing is registered and
   * the call is reported FAILED; on success the bridge is set up.
   */
  method OpenBridge(reg: Registry, pathSid: string, apiKey: string, reachable: bool, base: string,
                    lookup: string, statusDetails: Option<CallDetails>, existing: seq<TranscriptEntry>, now: int)
    returns (r: Result<Bridge, seq<CollabCall>>)
    requires reg.Valid() && pathSid != ""
    modifies reg
    ensures reg.Valid()
    ensures reg.incoming == old(reg.incoming) && reg.agent == old(reg.agent)
    ensures apiKey == "" || !reachable ==>
      && r == Failure(ConnectFailureCalls(reg.incoming, reg.agent, pathSid, lookup))
      && reg.active == old(reg.active)
    ensures apiKey != "" && reachable ==>
      && r.Success? && fresh(r.value) && fresh(r.value.backend) && r.value.Valid()
      && r.value.reg == reg && r.value.pathSid == pathSid
      && r.value.backend.open
      && r.value.backend.sent == [SessionUpdate(SessionFor(Instructions(PathPrompts(reg.incoming, pathSid), base))),
                                  ResponseCreate]
      && reg.active == old(reg.active)[pathSid := r.value.backend]
      && r.value.callId == SetupCallId(reg.incoming, reg.agent, pathSid, lookup)
      && r.value.collab == SetupCalls(r.value.callId, PathPrompts(reg.incoming, pathSid), statusDetails, existing, now)
  {
    var prompts := PathPrompts(reg.incoming, pathSid);
    var conn := ConnectToOpenAIRealtime(apiKey, reachable, prompts, base);
    if conn.Failure? {
      return Failure(ConnectFailureCalls(reg.incoming, reg.agent, pathSid, lookup));
    }
    var bridge := new Bridge(reg, pathSid, conn.value, prompts, lookup, statusDetails, existing, now);
    return Success(bridge);
  }

  // ---------------------------------------------------------------------
  // Lemmas

  /**
   * As written, a `connected` frame naming a call the registry knows, while
   * the call id is still unknown, always makes the handler raise: the call
   * id it finds is non-empty.
   */
  lemma RegisteredSidRaises(incoming: Dict<string, CallMapping>, agent: Dict<string, string>,
                            pathSid: string, sid: string, lookup: string)
    requires forall k | k in incoming.items :: incoming.items[k].callId != ""
    requires sid != "" && ResolvesLocally(incoming, agent, sid)
    ensures ConnectedRaises(incoming, agent, pathSid, "", sid, lookup)
    ensures CallIdAfterConnected(incoming, agent, "", sid, lookup) != ""
  {
    LocalResolutionIgnoresRemote(incoming, agent, sid, lookup, lookup);
  }

  /**
   * The handler survives a `connected` frame only when it leaves the call id
   * as it was: no prompt posting and no successful lookup happens on a
   * frame that does not raise.
   */
  lemma ConnectedSurvivesOnlyWithoutChange(incoming: Dict<string, CallMapping>, agent: Dict<string, string>,
                                           pathSid: string, callId: string, sid: string, lookup: string)
    requires !ConnectedRaises(incoming, agent, pathSid, callId, sid, lookup)
    ensures CallIdAfterConnected(incoming, agent, callId, sid, lookup) == callId
  {
  }

  /** The assistant's text and its audio transcript have the same effect: both are posted stripped. */
  lemma AiTextMatchesTranscript(callId: string, text: string)
    requires callId != "" && !IsBlank(text)
    ensures Requests(SendTranscript(callId, text, SpeakerAi)) == [PostTranscript(callId, Strip(text), SpeakerAi)]
  {
  }

  // ---------------------------------------------------------------------
  // Lemmas about traces

  lemma {:induction false} AudioOfAppend(a: seq<BackendMsg>, b: seq<BackendMsg>)
    ensures AudioOf(a + b) == AudioOf(a) + AudioOf(b)
    decreases |b|
  {
    if b == [] {
      assert a + b == a;
    } else {
      var ab := a + b;
      assert ab[..|ab| - 1] == a + b[..|b| - 1];
      assert ab[|ab| - 1] == b[|b| - 1];
      AudioOfAppend(a, b[..|b| - 1]);
    }
  }

  /**
   * One event only appends to the backend's messages, and the only audio it
   * adds is the payload of a media frame read while the backend is open and
   * the telephony loop runs. A barge-in adds a truncation, never audio.
   */
  lemma NextAudio(w: World, env: Env, e: BridgeEvent)
    ensures w.sent <= Next(w, env, e).sent
    ensures AudioOf(Next(w, env, e).sent) == AudioOf(w.sent) +
      if e.TwilioRead? && e.twilio.Media? && w.open && !w.s.twilioDone && w.s.twilioOpen then [e.twilio.payload] else []
  {
    var n := Next(w, env, e);
    if e.TwilioRead? && e.twilio.Media? && w.open && !w.s.twilioDone && w.s.twilioOpen {
      assert n.sent == w.sent + [AudioAppend(e.twilio.payload)];
      assert (w.sent + [AudioAppend(e.twilio.payload)])[..|w.sent|] == w.sent;
    } else if e.BackendRead? && !w.s.backendDone && w.open && e.backendEvent.SpeechStarted? {
      AudioOfAppend(w.sent, BargeIn(w.s));
      if BargeIn(w.s) != [] {
        assert BargeIn(w.s)[..0] == [];
      }
    } else {
      assert n.sent == w.sent;
    }
  }

  /**
   * One event never reopens what has closed or restarts what has ended,
   * only appends to every output, and sends nothing on a closed backend.
   */
  lemma NextMonotone(w: World, env: Env, e: BridgeEvent)
    ensures var n := Next(w, env, e);
      && (n.open ==> w.open) && (n.s.twilioOpen ==> w.s.twilioOpen)
      && (w.s.twilioDone ==> n.s.twilioDone) && (w.s.backendDone ==> n.s.backendDone)
      && w.s.toTwilio <= n.s.toTwilio && w.s.collab <= n.s.collab && n.s.cleanups == w.s.cleanups
      && (!w.open ==> n.sent == w.sent)
  {
  }

  /**
   * Over any trace the outputs only grow, the backend never reopens, an
   * ended loop stays ended, and a closed backend receives nothing more.
   */
  lemma {:induction false} TraceOnlyGrows(w: World, env: Env, events: seq<BridgeEvent>)
    ensures var t := Trace(w, env, events);
      && w.sent <= t.sent && w.s.toTwilio <= t.s.toTwilio && w.s.collab <= t.s.collab && t.s.cleanups == w.s.cleanups
      && (t.open ==> w.open) && (t.s.twilioOpen ==> w.s.twilioOpen)
      && (w.s.twilioDone ==> t.s.twilioDone) && (w.s.backendDone ==> t.s.backendDone)
      && (!w.open ==> t.sent == w.sent)
    decreases |events|
  {
    if events != [] {
      var init := events[..|events| - 1];
      TraceOnlyGrows(w, env, init);
      NextMonotone(Trace(w, env, init), env, events[|events| - 1]);
    }
  }

  /**
   * Caller audio reaches the backend unchanged and in arrival order: the
   * audio the backend receives over a trace is the payloads of exactly
   * those media frames read while it was open and the telephony loop ran,
   * whatever else the trace interleaves.
   */
  lemma {:induction false} TraceForwardsAudio(w: World, env: Env, events: seq<BridgeEvent>)
    ensures w.sent <= Trace(w, env, events).sent
    ensures AudioOf(Trace(w, env, events).sent) == AudioOf(w.sent) + Forwarded(w, env, events)
    decreases |events|
  {
    if events != [] {
      var init := events[..|events| - 1];
      TraceForwardsAudio(w, env, init);
      NextAudio(Trace(w, env, init), env, events[|events| - 1]);
    }
  }

  /**
   * A trace at whose end the backend is still open and the telephony loop
   * still runs has delivered every media frame's payload to the backend.
   */
  lemma {:induction false} EveryFrameForwarded(w: World, env: Env, events: seq<BridgeEvent>)
    requires Trace(w, env, events).open && !Trace(w, env, events).s.twilioDone && Trace(w, env, events).s.twilioOpen
    ensures Forwarded(w, env, events) == MediaPayloads(events)
    ensures AudioOf(Trace(w, env, events).sent) == AudioOf(w.sent) + MediaPayloads(events)
    decreases |events|
  {
    if events != [] {
      var init := events[..|events| - 1];
      NextMonotone(Trace(w, env, init), env, events[|events| - 1]);
      EveryFrameForwarded(w, env, init);
    }
    TraceForwardsAudio(w, env, events);
  }
}
