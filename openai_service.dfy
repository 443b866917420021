/**
 * Speech-backend session set-up (services/openai_service.py): the messages
 * the bridge sends to the realtime backend, the connection handle, the
 * composition of the session instructions from the administrator's initial
 * prompts, and the fixed session configuration.
 */
module OpenAIService {
  import opened Strings
  import opened Wrappers

  const InputAudioFormat := "g711_ulaw"
  const OutputAudioFormat := "g711_ulaw"
  const Voice := "ash"

  /** A callable tool; `parametersType` is the JSON-schema type of its (empty) parameter object. */
  datatype Tool = Tool(
    kind: string, name: string, description: string,
    parametersType: string, properties: seq<string>, required: seq<string>)

  /** The `session` object of a `session.update` message. */
  datatype Session = Session(
    turnDetection: string,
    inputAudioFormat: string,
    outputAudioFormat: string,
    voice: string,
    instructions: string,
    modalities: seq<string>,
    temperature: real,
    tools: seq<Tool>,
    toolChoice: string,
    transcriptionModel: string,
    transcriptionLanguage: string)

  /** Messages sent to the speech backend. */
  datatype BackendMsg =
    | SessionUpdate(session: Session)
    /** `response.create` */
    | ResponseCreate
    /** `input_audio_buffer.append` */
    | AudioAppend(audio: string)
    /** `conversation.item.truncate` */
    | Truncate(itemId: string, contentIndex: int, audioEndMs: int)
    /** `conversation.item.create` of a user `message` with one `input_text` part */
    | UserTextItem(text: string)

  /**
   * The speech-backend WebSocket. The same object is held by the bridge and
   * by the connection registry, so a close by one is seen by the other.
   */
  class BackendSocket {
    var open: bool
    var sent: seq<BackendMsg>

    constructor ()
      ensures open && sent == []
    {
      open := true;
      sent := [];
    }

    method Send(m: BackendMsg)
      requires open
      modifies this
      ensures open && sent == old(sent) + [m]
    {
      sent := sent + [m];
    }

    method Close()
      modifies this
      ensures !open && sent == old(sent)
    {
      open := false;
    }
  }

  // ---------------------------------------------------------------------
  // Instructions

  const ObjectivesHeader := "**PRIMARY CALL OBJECTIVES (HIGHEST PRIORITY):**\n"
  const ObjectivesGuidance := "\n\nThese objectives define the purpose of this call. Use your judgment to determine the best conversation flow:\n\n**For most calls:** Start with a brief introduction, ask if they have time, then discuss the objectives.\n**For urgent/time-sensitive matters:** You may address the objectives immediately after a quick greeting.\n**For casual/friendly topics:** A warm greeting and check-in before discussing objectives is appropriate.\n\nAdapt your opening naturally based on the urgency, importance, and nature of the objectives. The key is to be respectful of their time while ensuring the objectives are addressed. Use natural human conversation flow - sometimes you greet first, sometimes you get straight to the point.\n\n**CRITICAL - NO REPETITION:** Once you've introduced yourself and stated the purpose, NEVER repeat your introduction or the same information. After the caller responds (especially with 'Yes' or confirmation), move the conversation forward IMMEDIATELY. Do NOT reintroduce yourself. Do NOT restate what you already said. Do NOT ask the same question again. Instead, acknowledge their response briefly and proceed with the next logical step. If they've confirmed, provide additional details, ask specific follow-up questions, or move to completing the objective. Example: If you said 'Do you have a moment?' and they said 'Yes', respond with 'Great, [then provide the information or ask the next question]' - NOT another introduction or the same question.\n\nIf these objectives conflict with any general instructions below, these objectives take precedence.\n\n"
  const ObjectivesFooter := "\n\n**IMPORTANT:** The PRIMARY CALL OBJECTIVES above take priority over ALL general instructions, including the greeting format. Use your judgment to determine the most appropriate conversation flow. NEVER repeat your introduction or the same information you've already shared. Always move the conversation forward after getting a response."

  /** `[p.strip() for p in initial_prompts if p and p.strip()]` */
  function ValidPrompts(prompts: seq<string>): (r: seq<string>)
    ensures |r| <= |prompts|
  {
    if prompts == [] then []
    else (if IsBlank(prompts[0]) then [] else [Strip(prompts[0])]) + ValidPrompts(prompts[1..])
  }

  /** `"- " + p` for every valid prompt. */
  function BulletLines(valid: seq<string>): (r: seq<string>)
    ensures |r| == |valid|
    ensures forall i | 0 <= i < |r| :: r[i] == "- " + valid[i]
  {
    seq(|valid|, i requires 0 <= i < |valid| => "- " + valid[i])
  }

  /** The objectives block put in front of the base instructions. */
  function ObjectivesBlock(valid: seq<string>): string {
    ObjectivesHeader + Join(BulletLines(valid), "\n") + ObjectivesGuidance
  }

  /**
   * The session instructions: the base instructions alone, or, when there
   * are valid initial prompts, the objectives block in front of them and the
   * footer after them.
   */
  function Instructions(prompts: seq<string>, base: string): (r: string)
    ensures ValidPrompts(prompts) == [] ==> r == base
    ensures ValidPrompts(prompts) != [] ==> Contains(r, base)
  {
    var valid := ValidPrompts(prompts);
    if valid == [] then base
    else
      assert InfixAt(base, base, 0);
      ContainsInMiddle(ObjectivesBlock(valid), base, ObjectivesFooter, base);
      ObjectivesBlock(valid) + base + ObjectivesFooter
  }

  // ---------------------------------------------------------------------
  // Session

  const Tools: seq<Tool> := [
    Tool("function", "send_website_link", "Send a text message with a link to the company website homepage. Use this when the caller asks for general information, wants to visit the website, or learn more about the company. The link will be sent via SMS to the caller's phone number (which is automatically retrieved from the call). You don't need to provide any parameters.", "object", [], []),
    Tool("function", "send_request_form", "Send a text message with a link to the request form. Use this when a new lead or existing client needs to fill out the request form to provide their service details, book a service, request a quote, or schedule cleaning. The form link will be sent via SMS to the caller's phone number (which is automatically retrieved from the call). You don't need to provide any parameters.", "object", [], []),
    Tool("function", "send_gift_card_form", "Send a text message with a link to the gift card purchase form. Use this when the caller asks about gift cards, purchasing gift cards, buying gift cards, or sending gift cards. The gift card form link will be sent via SMS to the caller's phone number (which is automatically retrieved from the call). You don't need to provide any parameters.", "object", [], []),
    Tool("function", "end_call", "End the current phone call. IMPORTANT: Before calling this function, you MUST say a polite goodbye to the caller (e.g., 'Thank you for calling, have a great day!' or 'Thanks for your time, goodbye!'). Only call this function AFTER you have finished speaking your goodbye message. Use this when the conversation is complete, the objectives have been achieved, or when the caller wants to end the call. This will gracefully terminate the call. You don't need to provide any parameters.", "object", [], [])
  ]

  /** The `session.update` payload for the given instructions. */
  function SessionFor(instructions: string): (s: Session)
    ensures s.instructions == instructions
    ensures s.turnDetection == "server_vad" && s.toolChoice == "auto"
    ensures s.inputAudioFormat == InputAudioFormat && s.outputAudioFormat == OutputAudioFormat
    ensures s.modalities == ["text", "audio"]
    ensures |s.tools| == 4
    ensures s.tools[0].name == "send_website_link" && s.tools[1].name == "send_request_form"
    ensures s.tools[2].name == "send_gift_card_form" && s.tools[3].name == "end_call"
    ensures forall i | 0 <= i < |s.tools| ::
      s.tools[i].kind == "function" && s.tools[i].properties == [] && s.tools[i].required == []
  {
    Session(
      turnDetection := "server_vad",
      inputAudioFormat := InputAudioFormat,
      outputAudioFormat := OutputAudioFormat,
      voice := Voice,
      instructions := instructions,
      modalities := ["text", "audio"],
      temperature := 0.8,
      tools := Tools,
      toolChoice := "auto",
      transcriptionModel := "whisper-1",
      transcriptionLanguage := "en")
  }

  /** `initialize_session`: configure the session, then ask the backend to speak first. */
  method InitializeSession(ws: BackendSocket, prompts: seq<string>, base: string)
    requires ws.open
    modifies ws
    ensures ws.open
    ensures ws.sent == old(ws.sent) + [SessionUpdate(SessionFor(Instructions(prompts, base))), ResponseCreate]
  {
    ws.Send(SessionUpdate(SessionFor(Instructions(prompts, base))));
    ws.Send(ResponseCreate);
  }

  datatype ConnectError = MissingApiKey | ConnectFailed

  /**
   * `connect_to_openai_realtime`: `apiKey` is the configured key ("" when
   * unset); `reachable` says whether opening and initialising the socket
   * succeeds. Failures are returned to the caller, never swallowed.
   */
  method ConnectToOpenAIRealtime(apiKey: string, reachable: bool, prompts: seq<string>, base: string)
    returns (r: Result<BackendSocket, ConnectError>)
    ensures apiKey == "" ==> r == Failure(MissingApiKey)
    ensures apiKey != "" && !reachable ==> r == Failure(ConnectFailed)
    ensures apiKey != "" && reachable ==>
      && r.Success? && fresh(r.value) && r.value.open
      && r.value.sent == [SessionUpdate(SessionFor(Instructions(prompts, base))), ResponseCreate]
  {
    if apiKey == "" {
      return Failure(MissingApiKey);
    }
    if !reachable {
      return Failure(ConnectFailed);
    }
    var ws := new BackendSocket();
    InitializeSession(ws, prompts, base);
    return Success(ws);
  }

  // ---------------------------------------------------------------------
  // Lemmas

  /** The valid-prompt filter distributes over concatenation, so it keeps the prompts' order. */
  lemma {:induction false} ValidPromptsAppend(a: seq<string>, b: seq<string>)
    ensures ValidPrompts(a + b) == ValidPrompts(a) + ValidPrompts(b)
  {
    if a == [] {
      assert a + b == b;
    } else {
      assert (a + b)[0] == a[0];
      assert (a + b)[1..] == a[1..] + b;
      ValidPromptsAppend(a[1..], b);
    }
  }

  /** A non-blank prompt survives the filter, stripped. */
  lemma {:induction false} NonBlankPromptIsValid(prompts: seq<string>, i: int)
    requires 0 <= i < |prompts| && !IsBlank(prompts[i])
    ensures Strip(prompts[i]) in ValidPrompts(prompts)
  {
    if i > 0 {
      NonBlankPromptIsValid(prompts[1..], i - 1);
    }
  }

  /** No valid prompts exactly when every prompt is blank. */
  lemma {:induction false} NoValidPromptsIffAllBlank(prompts: seq<string>)
    ensures ValidPrompts(prompts) == [] <==> forall i | 0 <= i < |prompts| :: IsBlank(prompts[i])
  {
    if prompts != [] {
      NoValidPromptsIffAllBlank(prompts[1..]);
      if !IsBlank(prompts[0]) {
        assert ValidPrompts(prompts)[0] == Strip(prompts[0]);
      } else {
        forall i | 1 <= i < |prompts| ensures IsBlank(prompts[i]) <== IsBlank(prompts[1..][i - 1]) { }
      }
    }
  }

  /** The filter yields non-empty, already stripped prompts. */
  lemma {:induction false} ValidPromptsAreStripped(prompts: seq<string>)
    ensures forall p | p in ValidPrompts(prompts) :: p != "" && Strip(p) == p
  {
    if prompts != [] {
      ValidPromptsAreStripped(prompts[1..]);
      StripIdempotent(prompts[0]);
    }
  }

  /** With valid prompts, the instructions open with the header and the `- ` objective lines. */
  lemma InstructionsStartWithObjectives(prompts: seq<string>, base: string)
    requires ValidPrompts(prompts) != []
    ensures StartsWith(Instructions(prompts, base), ObjectivesHeader + Join(BulletLines(ValidPrompts(prompts)), "\n"))
  {
    var valid := ValidPrompts(prompts);
    StartsWithFirstTwo(ObjectivesHeader, Join(BulletLines(valid), "\n"), ObjectivesGuidance, base, ObjectivesFooter);
  }

  /** Every non-blank initial prompt appears, stripped, as a `- ` objective line of the instructions. */
  lemma EveryPromptIsAnObjective(prompts: seq<string>, base: string, i: int)
    requires 0 <= i < |prompts| && !IsBlank(prompts[i])
    ensures Contains(Instructions(prompts, base), "- " + Strip(prompts[i]))
  {
    var valid := ValidPrompts(prompts);
    NonBlankPromptIsValid(prompts, i);
    var k :| 0 <= k < |valid| && valid[k] == Strip(prompts[i]);
    var lines := BulletLines(valid);
    JoinContainsPart(lines, "\n", k);
    ContainsInMiddle(ObjectivesHeader, Join(lines, "\n"), ObjectivesGuidance, lines[k]);
    ContainsInPrefix(ObjectivesBlock(valid), base, lines[k]);
    ContainsInPrefix(ObjectivesBlock(valid) + base, ObjectivesFooter, lines[k]);
  }
}
