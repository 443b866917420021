/**
 * The record-keeping API client (services/nextjs_client.py): local call-id
 * resolution, and the requests `update_call_status`, `send_transcript`,
 * `update_call_metadata` and the webhook forwarders would issue. Responses
 * of the remote service are inputs: the remote call-id lookup is a string
 * ("" when it fails) and a call-details fetch an `Option<CallDetails>`.
 */
module NextjsClient {
  import opened Wrappers
  import opened Strings
  import opened PyDict
  import opened Constants
  import opened State

  // ---------------------------------------------------------------------
  // Call details as returned by the record-keeping API

  /** A start-time field of a call record: absent, a number, or an ISO string with its parse. */
  datatype StartField =
    | Absent
    | Number(n: int)
    /** `parsedMillis` is None when the string is not valid ISO-8601 */
    | Text(s: string, parsedMillis: Option<int>)
  {
    /** Python truthiness of the field's value. */
    predicate Truthy() {
      match this
      case Absent => false
      case Number(n) => n != 0
      case Text(s, _) => s != ""
    }
  }

  /** An entry of `metadata.transcripts`; a missing timestamp is 0 and a missing text "". */
  datatype TranscriptEntry = TranscriptEntry(text: string, speaker: Option<string>, timestamp: int)

  /** The fields of a fetched call record that the service reads. */
  datatype CallDetails = CallDetails(
    direction: string,
    routedToAI: bool,
    answeredAt: StartField,
    startedAt: StartField,
    createdAt: StartField,
    transcripts: seq<TranscriptEntry>,
    initialPrompts: seq<string>)

  // ---------------------------------------------------------------------
  // Requests to the record-keeping API

  datatype Metadata =
    /** `{"routedToAI": True, "aiMode": True}` */
    | AiRouting
    | FinalTranscription(text: string, transcriptCount: nat)

  datatype StatusPayload = StatusPayload(
    status: CallStatus, answeredAt: Option<int>, endedAt: Option<int>, duration: Option<int>)

  datatype CollabCall =
    /** POST `/api/calls/{id}/transcript` */
    | PostTranscript(callId: string, text: string, speaker: string)
    /** PATCH `/api/calls/{id}/status` */
    | PatchStatus(callId: string, payload: StatusPayload)
    /** PATCH `/api/calls/{id}/metadata` */
    | PatchMetadata(callId: string, metadata: Metadata)
    /** PUT `/api/calls/{id}` with the telephony sid and a status (`update_call_record`) */
    | PutCallRecord(callId: string, twilioCallSid: string, status: CallStatus)

  // ---------------------------------------------------------------------
  // fetch_call_id

  /**
   * `fetch_call_id`: the incoming mapping's call id; the sid itself for an
   * outbound call's id-keyed entry; the call id of an agent leg's original
   * call; otherwise the remote lookup's answer `remote`.
   */
  function FetchCallId(incoming: Dict<string, CallMapping>, agent: Dict<string, string>,
                       sid: string, remote: string): (r: string)
    ensures sid in incoming.items && incoming.items[sid].callId != "" ==> r == incoming.items[sid].callId
    ensures sid !in incoming.items && sid in agent.items && agent.items[sid] in incoming.items ==>
      r == incoming.items[agent.items[sid]].callId
    ensures sid !in incoming.items && (sid !in agent.items || agent.items[sid] !in incoming.items) ==>
      r == remote
  {
    if sid in incoming.items && incoming.items[sid].callId != "" then
      incoming.items[sid].callId
    else if sid in incoming.items && incoming.items[sid].isOutgoing && incoming.items[sid].twilioCallSid != "" then
      sid
    else if sid in agent.items && agent.items[sid] in incoming.items then
      incoming.items[agent.items[sid]].callId
    else
      remote
  }

  /** Does the local part of `fetch_call_id` answer for `sid`? */
  predicate ResolvesLocally(incoming: Dict<string, CallMapping>, agent: Dict<string, string>, sid: string) {
    sid in incoming.items || (sid in agent.items && agent.items[sid] in incoming.items)
  }

  /**
   * Under the registry invariant a sid known to the registry resolves
   * locally to a non-empty call id, whatever the remote service says.
   */
  lemma LocalResolutionIgnoresRemote(incoming: Dict<string, CallMapping>, agent: Dict<string, string>,
                                     sid: string, remote1: string, remote2: string)
    requires forall k | k in incoming.items :: incoming.items[k].callId != ""
    requires ResolvesLocally(incoming, agent, sid)
    ensures FetchCallId(incoming, agent, sid, remote1) == FetchCallId(incoming, agent, sid, remote2) != ""
  {
  }

  /** A miss everywhere with a failed remote lookup gives no call id. */
  lemma UnknownSidHasNoCallId(incoming: Dict<string, CallMapping>, agent: Dict<string, string>, sid: string)
    requires !ResolvesLocally(incoming, agent, sid)
    ensures FetchCallId(incoming, agent, sid, "") == ""
  {
  }

  // ---------------------------------------------------------------------
  // update_call_status

  /** A start time in milliseconds: numbers below 10^10 are seconds. */
  function StartMillis(f: StartField): (r: Option<int>)
    ensures f.Absent? ==> r.None?
    ensures f.Number? && f.n < 10_000_000_000 ==> r == Some(f.n * 1000)
    ensures f.Number? && f.n >= 10_000_000_000 ==> r == Some(f.n)
  {
    match f
    case Absent => None
    case Number(n) => Some(if n < 10_000_000_000 then n * 1000 else n)
    case Text(_, parsed) => parsed
  }

  /** `answeredAt or startedAt or createdAt`, normalised to milliseconds. */
  function CallStartMillis(d: CallDetails): Option<int> {
    if d.answeredAt.Truthy() then StartMillis(d.answeredAt)
    else if d.startedAt.Truthy() then StartMillis(d.startedAt)
    else if d.createdAt.Truthy() then StartMillis(d.createdAt)
    else None
  }

  function Max0(x: int): int { if x < 0 then 0 else x }

  /** `max(0, (ended_at - start_ts) // 1000)`: whole seconds elapsed, never negative. */
  function DurationSeconds(endedAt: int, startMs: int): (r: nat)
    ensures r * 1000 <= Max0(endedAt - startMs) < r * 1000 + 1000
  {
    Max0((endedAt - startMs) / 1000)
  }

  /** The `duration` field: only for a completion with an end time and a known, non-zero start. */
  function Duration(status: CallStatus, endedAt: int, details: Option<CallDetails>): (r: Option<int>)
    ensures r.Some? <==>
      && status == Completed && endedAt != 0 && details.Some?
      && CallStartMillis(details.value).Some? && CallStartMillis(details.value).value != 0
    ensures r.Some? ==> r.value >= 0
    ensures r.Some? ==> r.value == DurationSeconds(endedAt, CallStartMillis(details.value).value) as int
  {
    if status == Completed && endedAt != 0 && details.Some? then
      match CallStartMillis(details.value)
      case Some(start) => if start != 0 then Some(DurationSeconds(endedAt, start) as int) else None
      case None => None
    else None
  }

  /** An integer field of a payload is sent only when truthy. */
  function IfTruthy(x: int): (r: Option<int>)
    ensures r.Some? <==> x != 0
    ensures r.Some? ==> r.value == x
  {
    if x != 0 then Some(x) else None
  }

  /** Does an IN_PROGRESS update also mark the call as routed to the AI? */
  predicate MarksRouting(status: CallStatus, details: Option<CallDetails>) {
    status == InProgress && details.Some? && details.value.direction == "INBOUND" && !details.value.routedToAI
  }

  /**
   * `update_call_status`: the requests issued, in order. `answeredAt` and
   * `endedAt` are 0 when not given; `details` is the answer of the one
   * call-details fetch made for an IN_PROGRESS or COMPLETED update.
   */
  function UpdateCallStatus(callId: string, status: CallStatus, answeredAt: int, endedAt: int,
                            details: Option<CallDetails>): (calls: seq<CollabCall>)
    ensures callId == "" <==> calls == []
    ensures callId != "" ==>
      && 1 <= |calls| <= 2
      && calls[|calls| - 1] == PatchStatus(callId, StatusPayload(status, IfTruthy(answeredAt), IfTruthy(endedAt),
                                                                 Duration(status, endedAt, details)))
      && (|calls| == 2 <==> MarksRouting(status, details))
      && (|calls| == 2 ==> calls[0] == PatchMetadata(callId, AiRouting))
  {
    if callId == "" then []
    else
      var routing := if MarksRouting(status, details) then [PatchMetadata(callId, AiRouting)] else [];
      routing + [PatchStatus(callId, StatusPayload(status, IfTruthy(answeredAt), IfTruthy(endedAt),
                                                   Duration(status, endedAt, details)))]
  }

  /**
   * A start given in seconds and the same instant given in milliseconds
   * yield the same duration (for starts after 1970-04-26, when the seconds
   * value reaches 10^7).
   */
  lemma SecondsAndMillisAgree(endedAt: int, seconds: int, d: CallDetails)
    requires 10_000_000 <= seconds < 10_000_000_000
    requires d.answeredAt == Number(seconds)
    ensures Duration(Completed, endedAt, Some(d))
         == Duration(Completed, endedAt, Some(d.(answeredAt := Number(seconds * 1000))))
  {
  }

  /** A duration that is sent is the whole number of seconds between the record's start and the end time. */
  lemma DurationIsElapsedSeconds(status: CallStatus, endedAt: int, details: Option<CallDetails>)
    requires Duration(status, endedAt, details).Some?
    ensures var r := Duration(status, endedAt, details).value;
      r * 1000 <= Max0(endedAt - CallStartMillis(details.value).value) < r * 1000 + 1000
  {
    var start := CallStartMillis(details.value).value;
    assert Duration(status, endedAt, details).value == DurationSeconds(endedAt, start) as int;
  }

  /** Only a completion that ends no earlier than one second after its start has a positive duration. */
  lemma PositiveDurationMeansElapsed(endedAt: int, d: CallDetails)
    requires Duration(Completed, endedAt, Some(d)).Some?
    ensures Duration(Completed, endedAt, Some(d)).value > 0 <==>
      CallStartMillis(d).value + 1000 <= endedAt
  {
    var start := CallStartMillis(d).value;
    var r := DurationSeconds(endedAt, start);
    assert r * 1000 <= Max0(endedAt - start) < r * 1000 + 1000;
  }

  // ---------------------------------------------------------------------
  // send_transcript

  /** `send_transcript`: nothing without a call id or with blank text; otherwise the stripped text. */
  function SendTranscript(callId: string, text: string, speaker: string): (r: Option<CollabCall>)
    ensures r.Some? <==> callId != "" && !IsBlank(text)
    ensures r.Some? ==> r.value.PostTranscript? && r.value.callId == callId && r.value.speaker == speaker
    ensures r.Some? ==> r.value.text == Strip(text)
    ensures r.Some? ==> Contains(text, r.value.text) && r.value.text != ""
    ensures r.Some? ==> !IsSpace(r.value.text[0]) && !IsSpace(r.value.text[|r.value.text| - 1])
  {
    if callId == "" || IsBlank(text) then None
    else
      StripIsInfix(text);
      Some(PostTranscript(callId, Strip(text), speaker))
  }

  /** Optional request as a list of requests. */
  function Requests(c: Option<CollabCall>): seq<CollabCall> {
    if c.Some? then [c.value] else []
  }

  /** Stripping before `send_transcript` changes nothing: it strips again. */
  lemma SendTranscriptOfStripped(callId: string, text: string, speaker: string)
    ensures SendTranscript(callId, Strip(text), speaker) == SendTranscript(callId, text, speaker)
  {
    StripIdempotent(text);
  }

  // ---------------------------------------------------------------------
  // forward_webhook / forward_recording_webhook

  const WebhookPath := "/api/calls/webhook"
  const RecordingWebhookPath := "/api/calls/recording-webhook"
  const CallIdQuery := "?callId="

  /** The target of a forwarded webhook: `?callId=` is appended only for a known call id. */
  function WebhookUrl(appUrl: string, path: string, callId: string): (r: string)
    ensures StartsWith(r, appUrl + path)
    ensures |r| == |appUrl + path| <==> callId == ""
  {
    if callId == "" then appUrl + path else appUrl + path + CallIdQuery + callId
  }

  // The receiving side: a URL query read the way `URLSearchParams` reads it,
  // without its percent- and `+`-decoding.

  /** The text of `s` before its first `c` (all of `s` when there is none). */
  function TakeUntil(s: string, c: char): (r: string)
    ensures r <= s && c !in r
    ensures |r| < |s| ==> s[|r|] == c
  {
    if s == [] || s[0] == c then [] else [s[0]] + TakeUntil(s[1..], c)
  }

  /** The text of `s` after its first `c`, if it has one. */
  function AfterFirst(s: string, c: char): (r: Option<string>)
    ensures r.None? <==> c !in s
  {
    if s == [] then None else if s[0] == c then Some(s[1..]) else AfterFirst(s[1..], c)
  }

  /** `s.split(c)` */
  function SplitOn(s: string, c: char): (r: seq<string>)
    ensures r != []
    decreases |s|
  {
    var head := TakeUntil(s, c);
    if |head| == |s| then [s] else [head] + SplitOn(s[|head| + 1..], c)
  }

  /** The value of the first `name=value` pair named `name`. */
  function ParamValue(pairs: seq<string>, name: string): Option<string> {
    if pairs == [] then None
    else
      var key := TakeUntil(pairs[0], '=');
      if key == name then Some(if |key| < |pairs[0]| then pairs[0][|key| + 1..] else "")
      else ParamValue(pairs[1..], name)
  }

  /** The query parameter `name` of a URL: the query runs from the first `?` to the fragment's `#`. */
  function QueryParam(url: string, name: string): Option<string> {
    match AfterFirst(TakeUntil(url, '#'), '?')
    case None => None
    case Some(query) => ParamValue(SplitOn(query, '&'), name)
  }

  const CallIdParam := "callId"

  lemma {:induction false} TakeUntilAbsent(s: string, c: char)
    requires c !in s
    ensures TakeUntil(s, c) == s
  {
    if s != [] {
      TakeUntilAbsent(s[1..], c);
    }
  }

  lemma {:induction false} AfterFirstOf(a: string, c: char, b: string)
    requires c !in a
    ensures AfterFirst(a + [c] + b, c) == Some(b)
  {
    if a != [] {
      assert (a + [c] + b)[1..] == a[1..] + [c] + b;
      AfterFirstOf(a[1..], c, b);
    }
  }

  /**
   * The service receiving a forwarded webhook reads back exactly the call id
   * it was forwarded with, and finds none when none was known, provided the
   * base URL has no query or fragment and the id holds none of the
   * characters a query parser treats specially.
   */
  lemma WebhookUrlRoundTrip(appUrl: string, path: string, callId: string)
    requires '?' !in appUrl + path && '#' !in appUrl + path
    requires '&' !in callId && '#' !in callId && '%' !in callId && '+' !in callId
    ensures QueryParam(WebhookUrl(appUrl, path, callId), CallIdParam) ==
      if callId == "" then None else Some(callId)
  {
    var base := appUrl + path;
    if callId == "" {
      TakeUntilAbsent(base, '#');
    } else {
      var pair := CallIdParam + ['='] + callId;
      assert '&' !in pair && '#' !in pair;
      assert WebhookUrl(appUrl, path, callId) == base + ['?'] + pair;
      TakeUntilAbsent(base + ['?'] + pair, '#');
      AfterFirstOf(base, '?', pair);
      TakeUntilAbsent(pair, '&');
      assert SplitOn(pair, '&') == [pair];
      TakeUntilOf(CallIdParam, '=', callId);
    }
  }

  lemma {:induction false} TakeUntilOf(a: string, c: char, b: string)
    requires c !in a
    ensures TakeUntil(a + [c] + b, c) == a
  {
    if a != [] {
      assert (a + [c] + b)[1..] == a[1..] + [c] + b;
      TakeUntilOf(a[1..], c, b);
    }
  }

  /**
   * The id is appended unencoded: an id holding `&` is read back cut at the
   * `&`, and the rest becomes a parameter of its own.
   */
  lemma AmpersandInIdIsCut(appUrl: string, path: string, a: string, b: string)
    requires '?' !in appUrl + path && '#' !in appUrl + path
    requires '&' !in a && '#' !in a && '&' !in b && '#' !in b
    ensures QueryParam(WebhookUrl(appUrl, path, a + "&" + b), CallIdParam) == Some(a)
  {
    var callId := a + "&" + b;
    var url := WebhookUrl(appUrl, path, callId);
    var first := CallIdParam + "=" + a;
    var query := first + ['&'] + b;
    assert url == appUrl + path + ['?'] + query;
    assert '#' !in url;
    TakeUntilAbsent(url, '#');
    AfterFirstOf(appUrl + path, '?', query);
    assert '&' !in first;
    SplitAtFirst(first, '&', b);
    TakeUntilOf(CallIdParam, '=', a);
    assert first == CallIdParam + ['='] + a;
  }

  lemma SplitAtFirst(a: string, c: char, b: string)
    requires c !in a && c !in b
    ensures SplitOn(a + [c] + b, c) == [a, b]
  {
    var s := a + [c] + b;
    TakeUntilOf(a, c, b);
    assert s[|a| + 1..] == b;
    TakeUntilAbsent(b, c);
  }
}
