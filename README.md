# AI calling service — a Dafny model

This project models the decision logic of a telephone AI-calling service. The service bridges a telephony
provider's media stream to a realtime speech backend, and it reports call progress and transcripts to a
separate record-keeping web application. The model covers:

- **The per-call bridge** (`MediaStream.Bridge`): a class with the bridge's state.
  - Its two forwarding loops are one merged event trace, one step method per event kind.
  - It also covers set-up, the registry re-key on `connected`, and teardown.
  - The compilation of the final transcript is in module `FinalTranscript`.
- **The call registry** (`State.Registry`): live backend sockets, inbound and outbound call mappings, and
  agent-leg links. Python dicts are modelled as insertion-ordered `PyDict.Dict`s, because the
  administrator's agent-leg scan and the agent-leg tie-break depend on insertion order.
- **Identity resolution**: the local part of `fetch_call_id`, the administrator's connection-key search
  (with its loop proved against a specification function), and agent-leg matching by caller and recency.
- **Initial prompts**: de-duplicated posting as administrator transcript entries (a loop proved against
  `PromptsToSend`), and composition of the backend session's instructions and fixed session payload.
- **Record-keeping requests**: the status update with its duration arithmetic, transcript posting and
  webhook forwarding URLs, as values in an output sequence.
- **Validators and URL builders**: the call-id shape check, URL-safety check, phone-number checks, domain
  extraction, `ws`/`wss` choice and media-stream URL construction.

Sockets are objects. `OpenAIService.BackendSocket` has an `open` flag and the list of messages sent on
it. The same socket object is held by the bridge and by the registry, so an administrator's `end_call`
closes the bridge's own connection. Answers of remote services are parameters: the remote call-id
lookup, the fetched call record, the sid the telephony provider returns and the clock. "" stands for
Python's `None` where the source only tests truthiness.

## Model

| member | source | states |
|---|---|---|
| CallUtils.IsPrismaCallId | utils/call_utils.py:7-21 | an identifier is a record id iff it is at least 20 characters long and starts with `cm` |
| CallUtils.ValidateCallId | utils/call_utils.py:24-42 | false for the empty id; otherwise true iff no character is from the URL-breaking set |
| CallUtils.ShortIdIsNotCallId | utils/call_utils.py:17-21 | no identifier shorter than 20 characters is taken for a record id |
| Strings.StripRemovesOnlyEndSpaces | services/nextjs_client.py:153 | `strip()` removes whitespace at the two ends and nothing else: the text is whitespace, its stripped form, then whitespace |
| UrlParser.ExtractDomainFromUrl | utils/url_parser.py:7-28 | "" for ""; drops `https://` (8 chars) or `http://` (7 chars), then trailing `/`, then surrounding whitespace; the result is an infix of the URL with no whitespace at either end |
| UrlParser.StripInfix | utils/url_parser.py:21-26 | `url[n:].rstrip('/').strip()` occurs in the URL |
| UrlParser.GetWebsocketProtocol | utils/url_parser.py:31-43 | `ws` iff the domain contains `localhost` or `127.0.0.1`, else `wss` |
| UrlParser.BuildMediaStreamUrl | utils/url_parser.py:46-67 | fails iff both the argument domain and the configured URL are empty; otherwise the URL starts with `<protocol>://`, is the clean prefix followed by the right-stripped call id, and holds no `\n` or `\r` |
| UrlParser.MediaStreamUrlShape | utils/url_parser.py:67 | stripping the whole URL only trims the end of the call id; the scheme stays in front; no line breaks remain |
| UrlParser.ExtractSchemeRoundTrip | utils/url_parser.py:21-24 | a clean domain behind `https://` or `http://` is extracted unchanged |
| UrlParser.ExtractBareDomain | utils/url_parser.py:25-26 | a clean domain without scheme is extracted unchanged |
| UrlParser.BuildMediaStreamUrlExact | utils/url_parser.py:57-67 | with a clean domain and a whitespace-free call id, the URL is exactly `<protocol>://<domain>/media-stream/<call_id>` |
| NextjsClient.FetchCallId | services/nextjs_client.py:11-44 | a mapped sid gives its call id; an agent leg gives its original call's id; otherwise the remote answer |
| NextjsClient.LocalResolutionIgnoresRemote | services/nextjs_client.py:14-27 | a sid known locally resolves to a non-empty id, whatever the remote lookup would answer |
| NextjsClient.UnknownSidHasNoCallId | services/nextjs_client.py:29-44 | a sid unknown locally, with a failed remote lookup, has no call id |
| NextjsClient.StartMillis | services/nextjs_client.py:112-116 | numeric starts below 10^10 are seconds (times 1000), others milliseconds; an absent start has none |
| NextjsClient.DurationSeconds | services/nextjs_client.py:118-120 | the duration is the whole seconds elapsed, floored, never negative |
| NextjsClient.Duration | services/nextjs_client.py:97-120 | a duration is sent iff the update is COMPLETED with an end time and the record has a known, non-zero start; it is then `DurationSeconds` of the elapsed milliseconds, never negative |
| NextjsClient.DurationIsElapsedSeconds | services/nextjs_client.py:118-120 | a duration that is sent is the whole seconds between the record's start and the end time, floored |
| NextjsClient.IfTruthy | services/nextjs_client.py:78-81 | a time field is sent iff it is non-zero, with its value |
| NextjsClient.UpdateCallStatus | services/nextjs_client.py:65-135 | nothing without a call id; otherwise the status PATCH last, preceded by the AI-routing metadata PATCH exactly for an IN_PROGRESS update of an inbound call not yet routed |
| NextjsClient.SecondsAndMillisAgree | services/nextjs_client.py:112-120 | a start given in seconds and the same start in milliseconds give the same duration |
| NextjsClient.PositiveDurationMeansElapsed | services/nextjs_client.py:118-120 | the duration is positive iff the call ended at least one second after its start |
| NextjsClient.SendTranscript | services/nextjs_client.py:138-164 | a post is made iff the call id is known and the text is not blank; it carries the call id, the speaker and the stripped text, a non-empty infix of the text with no whitespace at either end |
| NextjsClient.SendTranscriptOfStripped | services/nextjs_client.py:144-153 | stripping before the call changes nothing, as the text is stripped again |
| NextjsClient.WebhookUrl | services/nextjs_client.py:203-225 | the target is the webhook endpoint, extended iff a call id is known |
| NextjsClient.WebhookUrlRoundTrip | services/nextjs_client.py:203-225 | a query parser reading the target's `callId` parameter gets exactly the call id, or nothing when none was known, for an id without `&`, `#`, `%` or `+` |
| NextjsClient.AmpersandInIdIsCut | services/nextjs_client.py:205-207 | as the id is appended unencoded, an id holding `&` is read back cut at the `&` |
| OpenAIService.ValidPrompts | services/openai_service.py:22 | the valid prompts are no more than the prompts |
| OpenAIService.ValidPromptsAppend | services/openai_service.py:22 | the filter keeps the prompts' order |
| OpenAIService.NonBlankPromptIsValid | services/openai_service.py:22 | every non-blank prompt survives, stripped |
| OpenAIService.NoValidPromptsIffAllBlank | services/openai_service.py:21-23 | there are no valid prompts iff every prompt is blank |
| OpenAIService.ValidPromptsAreStripped | services/openai_service.py:22 | valid prompts are non-empty and already stripped |
| OpenAIService.BulletLines | services/openai_service.py:24 | one `- p` line per valid prompt, in order |
| OpenAIService.Instructions | services/openai_service.py:21-53 | with no valid prompts, exactly the base instructions; otherwise they contain the base instructions |
| OpenAIService.InstructionsStartWithObjectives | services/openai_service.py:24-28 | with valid prompts, the instructions open with the objectives header and the `- p` lines joined by newlines |
| OpenAIService.EveryPromptIsAnObjective | services/openai_service.py:22-28 | every non-blank prompt appears stripped as a `- ` line of the instructions |
| OpenAIService.SessionFor | services/openai_service.py:55-116 | the payload: server VAD, the configured formats, text and audio, the four tools in order with empty parameters, automatic tool choice |
| OpenAIService.InitializeSession | services/openai_service.py:16-120 | exactly two messages are sent, `session.update` then `response.create` |
| OpenAIService.ConnectToOpenAIRealtime | services/openai_service.py:123-146 | a missing key fails before connecting; a failed connection is returned as an error; otherwise an open socket has received the two set-up messages |
| State.Registry.constructor | state.py:7-15 | the three maps start empty and well formed |
| TranscriptUtils.PromptsToSend | utils/transcript_utils.py:64-77 | the texts sent are no more than the prompts |
| TranscriptUtils.AdminPosts | utils/transcript_utils.py:76 | one administrator post per text, in order, with that text |
| TranscriptUtils.CheckAndSendInitialPrompts | utils/transcript_utils.py:29-79 | nothing is sent when already sent, without prompts or without a call id; otherwise the posts are exactly those of `PromptsToSend`, in order; the result is true iff something was sent |
| TranscriptUtils.PromptsToSendAppend | utils/transcript_utils.py:64-77 | prompts are handled one by one in list order |
| TranscriptUtils.RecordedOfStripped | utils/transcript_utils.py:69-73 | a prompt counts as recorded by its stripped text |
| TranscriptUtils.SentPromptsAreNewAndClean | utils/transcript_utils.py:64-76 | every text sent is a stripped, non-blank prompt of the list that was not yet recorded |
| TranscriptUtils.NewPromptsAreSent | utils/transcript_utils.py:64-77 | every non-blank prompt not yet recorded is sent |
| TranscriptUtils.FirstRunSendsValidPrompts | utils/transcript_utils.py:64-76 | with nothing recorded, exactly the valid prompts are sent |
| TranscriptUtils.RecordedAfterRun | utils/transcript_utils.py:69-77 | once one run's posts are stored, every non-blank prompt is recorded |
| TranscriptUtils.RerunSendsNothing | utils/transcript_utils.py:69-77 | a second run after the first one's posts were stored sends nothing |
| TranscriptUtils.NothingToSend | utils/transcript_utils.py:69-77 | when every non-blank prompt is recorded, nothing is sent |
| TranscriptUtils.DuplicatesAreEachSent | utils/transcript_utils.py:64-76 | a prompt not yet recorded is sent as many times as it occurs non-blank in the list (up to surrounding whitespace), since the recorded list is not extended during a run; a recorded one is never sent |
| Admin.MappedLiveCallId | routers/admin.py:38-41 | the mapped call id is returned only when it is a live key |
| Admin.AgentScan | routers/admin.py:45-58 | the scan only returns live keys |
| Admin.ConnectionKey | routers/admin.py:29-58 | the resolved key is live; a live sid resolves to itself |
| Admin.ResolveConnectionKey | routers/admin.py:29-58 | the resolution loop computes `ConnectionKey` and returns only live keys |
| Admin.AgentScanNone | routers/admin.py:45-58 | the scan finds nothing iff no agent leg of the call routes to a live key |
| Admin.AgentScanFirst | routers/admin.py:46-58 | the scan returns the route of the first matching agent leg in insertion order |
| Admin.NoConnectionIffNoRoute | routers/admin.py:29-68 | no connection is found iff the sid is not live, its mapping leads nowhere live and no agent leg routes it |
| Admin.AdminInstruction | routers/admin.py:82-94 | the item text is `[Admin instruction: ` + prompt + `]`, and the prompt can be read back from it |
| Admin.AdminPrompt | routers/admin.py:13-113 | 400 iff sid or prompt is missing; 404 iff nothing is resolved or its socket is closed; otherwise the user item then `response.create` go to the resolved socket and no other socket changes |
| Admin.EndCall | routers/admin.py:116-158 | 400 iff the sid is missing; otherwise that key is removed, all other keys are kept, its socket is closed, and no other socket changes |
| Admin.MappedCallIsMissedAsWritten | routers/admin.py:29-41 | a sid registered only through its mapping resolves for the prompt endpoint to its call id, a key other than the sid `end_call` looks up |
| Admin.EndCallResolved | routers/admin.py:116-158 | `end_call` resolving the sid as `admin_prompt` does: the session under `ConnectionKey` is closed and that key removed; with no key nothing changes; no other socket changes |
| Calls.IncomingCall | routers/calls.py:30-89 | 400 iff the sid is missing; a mapping with the caller is stored iff a call id is found; the recording callback carries that id |
| Calls.MostRecent | routers/calls.py:123-136 | the match is a non-outgoing mapping from the caller's number |
| Calls.MostRecentNone | routers/calls.py:123-129 | there is no match iff there is no candidate |
| Calls.MostRecentIsLatest | routers/calls.py:129-133 | the match is at least as recent as every candidate |
| Calls.MostRecentIsFirstLatest | routers/calls.py:131-132 | every candidate inserted before the match is strictly older, as the sort is stable |
| Calls.AgentStreamUrlIsBuilt | routers/calls.py:157-168 | with a configured service URL, the agent leg's URL is the one `build_media_stream_url` builds |
| Calls.AgentCall | routers/calls.py:92-200 | 400 iff the sid is missing; a candidate is linked to the leg and its call id used; otherwise the remote id, and a hang-up with no link when there is none |
| Calls.RequestError | routers/calls.py:209-268 | the request is accepted iff the provider is configured, both fields are given, the number starts with `+` and the call id is URL-safe |
| Calls.ClientIdentifierReported | routers/calls.py:231-237 | a `client:` destination is refused as such |
| Calls.OutboundStreamUrl | routers/calls.py:251-273 | the outbound stream URL is always `wss` and holds no line breaks |
| Calls.InitiateAiCall | routers/calls.py:203-344 | the provider is asked to place a call iff the request passes its checks, from the given number, with the `wss` stream URL and the recording callback of the call id; errors leave the mappings unchanged and store nothing on the record; on success the call id entry (with the sid) and then the sid entry are stored, both outgoing with the same prompts, and the sid is stored on the call record with status RINGING |
| Calls.OutboundMappingsResolve | routers/calls.py:308-325 | afterwards both keys resolve locally to the call id, and neither is an agent-leg candidate |
| FinalTranscript.Insert | handlers/media_stream.py:343 | inserting adds exactly one entry |
| FinalTranscript.SortByTimestamp | handlers/media_stream.py:343 | the sorted list is a permutation of the entries |
| FinalTranscript.SortByTimestampIsSorted | handlers/media_stream.py:343 | the entries come out in timestamp order |
| FinalTranscript.SortIsStable | handlers/media_stream.py:343 | entries with equal timestamps keep their recorded order |
| FinalTranscript.FinalLines | handlers/media_stream.py:347-359 | one `[ADMIN]: p` line per valid prompt, then one `[SPEAKER]: text` line per entry in sorted order |
| FinalTranscript.EveryLineInText | handlers/media_stream.py:361 | every line appears in the newline-joined text |
| FinalTranscript.SpeakerTagIsUpper | handlers/media_stream.py:356-359 | every line is `[TAG]: text`, where the tag is the speaker (`unknown` when absent) with every lower-case ASCII letter capitalised and other characters kept, so it holds no lower-case ASCII letter |
| MediaStream.SetupCalls | handlers/media_stream.py:103-110 | nothing without a call id; otherwise the IN_PROGRESS update stamped with the answer time, then one post per prompt not yet recorded, all for that call |
| MediaStream.SetupRequests | handlers/media_stream.py:96-110 | the status update followed by `check_and_send_initial_prompts` issues exactly the requests of `SetupCalls` |
| MediaStream.ConnectFailureCalls | handlers/media_stream.py:74-85 | on a backend failure the call is reported FAILED iff its id can be found |
| MediaStream.OpenBridge | handlers/media_stream.py:58-110 | on failure nothing is registered; on success a fresh open socket is registered under the path key, configured with the path's prompts, and the bridge is set up |
| MediaStream.Bridge.constructor | handlers/media_stream.py:69-110 | the path key maps to the socket, the call id is the path's record id or its lookup, nothing has been sent to the telephony side, and the record-keeping requests are those of `SetupCalls` |
| MediaStream.ActiveAfterConnected | handlers/media_stream.py:178-181 | unless the handler raised, a new sid takes over the path key's socket, the path key is gone and other keys are kept |
| MediaStream.Bridge.OnConnected | handlers/media_stream.py:141-181 | records the sid, looks up a missing call id, and raises exactly when it would post prompts or found a call id; a raise closes the backend and ends the loop before the re-key |
| MediaStream.RegisteredSidRaises | handlers/media_stream.py:152-170 | as written, a `connected` frame naming a registered call while the id is unknown always raises |
| MediaStream.ConnectedSurvivesOnlyWithoutChange | handlers/media_stream.py:153-170 | a `connected` frame that does not raise leaves the call id as it was |
| MediaStream.Bridge.OnConnectedIntended | handlers/media_stream.py:141-181 | the handler with the prompt variables shared: the registry is always re-keyed; once a call id and prompts are known the prompts have been posted; the posts are those of `PromptsToSend`; a found call id gets the sid stored on its record and the IN_PROGRESS update |
| MediaStream.Bridge.AdoptStoredPrompts | handlers/media_stream.py:153-161 | prompts stored for the frame's sid replace the current ones and are posted once if the call id is known |
| MediaStream.Bridge.AdoptFoundCallId | handlers/media_stream.py:164-176 | a found call id becomes the bridge's, the prompts not yet posted are posted, then the record update and the IN_PROGRESS update; a failed lookup changes nothing |
| MediaStream.Bridge.PostPrompts | handlers/media_stream.py:159-161 | the posts are exactly those of `PromptsToSend` for the call id |
| MediaStream.Bridge.RecordFoundCall | handlers/media_stream.py:172-176 | the sid is stored on the call record, then the IN_PROGRESS update is issued |
| MediaStream.Bridge.OnMedia | handlers/media_stream.py:183-188 | with the backend open, `latest_ts` becomes the frame's timestamp and exactly one append with the payload unchanged is sent; otherwise nothing changes |
| MediaStream.Bridge.OnStart | handlers/media_stream.py:190-192 | only the stream sid changes |
| MediaStream.Bridge.OnStop | handlers/media_stream.py:194-205 | the backend is closed and the telephony loop ends |
| MediaStream.Bridge.OnTwilioDisconnect | handlers/media_stream.py:211-219 | the backend is closed and the telephony loop ends |
| MediaStream.Bridge.OnTwilioRead | handlers/media_stream.py:137-225 | the bridge, its backend socket and the registry's connections end in the state `TwilioStep` gives: the disconnect once the peer has closed, else the handler of the frame's kind |
| MediaStream.Bridge.OnAudioDelta | handlers/media_stream.py:236-266 | forwards one frame to the current stream sid iff the delta is non-empty and a stream sid is known; a send on the closed socket ends the loop; the start time is set only if unset, the item only if given |
| MediaStream.Bridge.OnSpeechStarted | handlers/media_stream.py:112-131 | a truncate of the last item at `latest_ts - response_start_ts` is sent iff both are set; a clear frame goes out while the socket is open; both trackers are reset |
| MediaStream.Bridge.OnTranscript | handlers/media_stream.py:271-283 | posted stripped under the given speaker iff non-blank with a known call id |
| MediaStream.Bridge.OnAiText | handlers/media_stream.py:285-291 | posted under `ai`, stripped by `send_transcript`, iff non-blank with a known call id |
| MediaStream.AiTextMatchesTranscript | handlers/media_stream.py:285-291 | the assistant's text is posted as its audio transcript would be |
| MediaStream.Bridge.OnBackendRead | handlers/media_stream.py:227-297 | the bridge and its backend socket end in the state `BackendStep` gives: on a closed socket the loop ends, else the handler of the message's kind |
| MediaStream.Bridge.Run | handlers/media_stream.py:133-301 | over any merged trace the invariant holds and the bridge ends in the state `Trace` gives |
| MediaStream.NextAudio | handlers/media_stream.py:112-188 | one event only appends to the backend's messages, and adds audio only for a media frame read while the backend is open and the telephony loop runs |
| MediaStream.NextMonotone | handlers/media_stream.py:133-301 | one event never reopens a socket or restarts a loop, and outputs only grow |
| MediaStream.TraceOnlyGrows | handlers/media_stream.py:133-301 | over any trace outputs only grow, closed sockets stay closed, ended loops stay ended, and a closed backend receives nothing |
| MediaStream.TraceForwardsAudio | handlers/media_stream.py:183-188 | over any trace the backend's audio is the old audio plus the payloads of exactly the media frames read while it was open and the telephony loop ran, unchanged and in order |
| MediaStream.EveryFrameForwarded | handlers/media_stream.py:183-188 | when the backend is still open and the telephony loop still runs at the end, every media frame's payload reached the backend, in order |
| MediaStream.CleanupCoversBothKeys | handlers/media_stream.py:307-322 | both the cleanup sid and the path key are handed to the mapping clean-up |
| MediaStream.MetadataCalls | handlers/media_stream.py:331-368 | the compiled transcript and the entry count are sent iff the fetched record has transcript entries |
| MediaStream.CompletionCalls | handlers/media_stream.py:331-370 | nothing without a call id; otherwise exactly the requests of `MetadataCalls`, then the COMPLETED update with the end time |
| MediaStream.Bridge.Teardown | handlers/media_stream.py:306-381 | removes the cleanup sid and the path key from the registry, records the clean-up calls and issues the completion requests; the backend stays closed |

`MediaStream.Bridge.Valid` is the invariant every step keeps:
- the registry stays well formed;
- once the telephony loop has ended, the backend socket is closed;
- no audio frame goes out before a stream sid is known, and none without a stream sid or payload;
- every record-keeping request is about the bridge's one call, and none is issued while its id is unknown.

## Behaviour as written

These points of the code differ from the service's documented design. The model follows the code.

- **The `connected` handler raises** (handlers/media_stream.py:141-176). `initial_prompts` and
  `initial_prompts_sent` are assigned inside the telephony loop without `nonlocal`, so Python treats them
  as locals of that loop. Reading them raises UnboundLocalError. This happens in two cases: the prompt branch
  runs with a known call id, or a call id is found for the frame's sid. The exception is caught at
  line 220: the backend is closed, and the telephony loop ends before the registry is re-keyed. As a result,
  the `update_call_record` call at line 174 and the status update at line 176 are never reached. Were it
  reached, line 174 would raise as well: it passes five arguments to `update_call_record`, which takes at
  most three (services/nextjs_client.py:167). The design instead expects the objectives to be posted and
  the registry to be re-keyed.
  - As written: `MediaStream.Bridge.OnConnected` (the bridge's trace uses it), with
    `MediaStream.RegisteredSidRaises` and `MediaStream.ConnectedSurvivesOnlyWithoutChange`.
  - As intended: `MediaStream.Bridge.OnConnectedIntended` shares the two variables with the enclosing
    handler and stores the sid with `update_call_record(call_id, sid)`. It always re-keys the registry,
    and once a call id and prompts are known the prompts have been posted.
- **`end_call` does not resolve the sid** (routers/admin.py:132-144). It uses the sid as a registry key
  directly, while the prompt endpoint also follows call mappings and agent legs. A call whose connection is
  registered under another key is reported as ended, but its session stays open.
  - As written: `Admin.EndCall`, with `Admin.MappedCallIsMissedAsWritten` for a sid known only through its
    mapping.
  - As intended: `Admin.EndCallResolved` resolves the sid through `Admin.ConnectionKey` first, so it
    closes the session an administrator prompt for the same sid reaches.
- **Teardown's final close** (handlers/media_stream.py:377-381). Under the disconnect assumption in
  "## Left out", this close never finds an open socket. Every way the telephony loop ends closes the
  backend first, so `Bridge.Teardown` omits the close. If the telephony stream ended without raising,
  the loop would return with the backend still open, and this close would then be needed. That case is
  not modelled.
- **Imports** (handlers/media_stream.py:9, 22). `send_initial_greeting` and `cleanup_call_mappings`
  are imported but defined nowhere, so the module cannot be imported as written. The model assumes
  both imports resolve:
  - the greeting call at line 72 does nothing (the backend is already asked to speak first);
  - each clean-up call is recorded as a `CleanupRequest` without interpreting it.

## Left out

- Sockets, HTTP and concurrency. The two loops are a merged trace of atomic steps, and the join of the
  two loops is the precondition of `Teardown`. Interleavings inside a step are not modelled.
- Interaction between a running bridge and the endpoints. `Run` does not interleave administrator
  requests or webhooks. Their effect on the shared socket is stated on `Admin.EndCall` and
  `Admin.AdminPrompt`.
- A telephony disconnect is modelled as lines 211-219 state it: the disconnect reaches the loop's
  exception handler, which closes the backend. The web framework's own iterator is not part of this
  model, so whether it delivers the disconnect that way is not captured.
- Base64 audio is treated as opaque. The decode and re-encode at handlers/media_stream.py:244-246 is the
  identity on the payload. A delta that is not valid base64 (logged and skipped at lines 258-261) is not modelled.
- Malformed frames are not modelled: a `media` or `start` frame missing a field raises and ends the
  telephony loop.
- Remote answers are inputs: the call-id lookup, call-record fetches, the provider's created sid and
  the clock. ISO-8601 parsing of start times is an input too (`StartField.Text` carries the parsed value).
  Float timestamps are integers.
- `NextjsClient.StartMillis`: models numeric start times as integers, because a fractional start in
  seconds is not represented.
- `Calls.InitiateAiCall`: of the TwiML document it keeps only the stream URL; the one-hour pause is not
  modelled.
- `NextjsClient.WebhookUrlRoundTrip`: the receiving service is modelled as a query parser without
  percent- or `+`-decoding. The round trip is stated for ids without `&`, `#`, `%` or `+`, and
  `NextjsClient.AmpersandInIdIsCut` shows what an `&` does.
- `Calls.IncomingCall` and `Calls.AgentCall`: TwiML documents are reduced to the data they carry.
  Provider-side errors (the 500 replies) are not modelled.
- Upper-casing (`Strings.Upper`) covers ASCII letters only. `str.isspace` is modelled by its list of
  code points.
- Webhook forwarding (routers/webhooks.py), configuration (config.py), the health endpoint and the
  provider client are not part of this model.
