/**
 * services/geminiService.ts: how a co-pilot request is assembled from the
 * phase configuration, the context data and the recent chat history, and
 * which text comes back when the model's reply is empty or the call fails.
 * The SDK call itself is a parameter: `ApiOutcome` is what it answered.
 */
module GeminiService {
  import opened Wrappers
  import opened Types
  import Constants

  /** `getModel()`. */
  const MODEL_NAME := "gemini-3-flash-preview"

  /** How many earlier messages go out with a request. */
  const HISTORY_WINDOW := 10

  const INVALID_PHASE_ID := "Invalid Phase ID"
  const EMPTY_REPLY_TEXT := "I'm sorry, I couldn't generate a response at this time."
  const API_ERROR_TEXT := "I encountered an error connecting to the AI service. Please check your API key or try again."

  /** The service's wire format of one turn: a role and a single text part. */
  datatype Content = Content(role: string, text: string)

  /**
   * A `generateContent` call of the co-pilot: model, turns and temperature,
   * with the phase's configured instruction and the context data from which
   * `SystemInstructionText` renders its system instruction.
   */
  datatype Request = Request(model: string, contents: seq<Content>, instruction: string, contextData: string, temperature: real)

  /** What the SDK answered: a response whose `text` may be missing, or a thrown error. */
  datatype ApiOutcome = Replied(text: Option<string>) | ApiError

  /** `generateCoPilotResponse`: either it throws before any call, or a request went out and a reply text came back. */
  datatype CoPilotCall = Thrown(error: string) | Sent(request: Request, reply: string)

  /** `msg.role === MessageRole.USER ? 'user' : 'model'`. */
  function WireRole(r: MessageRole): (w: string)
    ensures r == User ==> w == "user"
    ensures r != User ==> w == "model"
  {
    if r == User then "user" else "model"
  }

  /** The wire role of a message is the string value of its role. */
  lemma WireRoleIsRoleValue(r: MessageRole)
    ensures WireRole(r) == RoleValue(r)
  {
    match r
    case User =>
    case Model =>
  }

  /** One message in the wire format: its role's enum string and its text. */
  function ToContent(m: ChatMessage): (r: Content)
    ensures r.role == RoleValue(m.role) && r.text == m.text
  {
    WireRoleIsRoleValue(m.role);
    Content(WireRole(m.role), m.text)
  }

  /** `history.map(...)` into the wire format, message by message. */
  function ToContents(h: seq<ChatMessage>): (r: seq<Content>)
    ensures |r| == |h|
    ensures forall i :: 0 <= i < |h| ==> r[i] == ToContent(h[i])
  {
    if h == [] then [] else [ToContent(h[0])] + ToContents(h[1..])
  }

  function Min(a: int, b: int): int {
    if a < b then a else b
  }

  /** `history.slice(-10)`: the last ten messages, or all of them when there are fewer. */
  function RecentHistory(h: seq<ChatMessage>): (r: seq<ChatMessage>)
    ensures |r| == Min(|h|, HISTORY_WINDOW)
    ensures r == h[|h| - |r|..]
  {
    if |h| <= HISTORY_WINDOW then h else h[|h| - HISTORY_WINDOW..]
  }

  /** The window slides: appending a message and taking the window equals doing so on the window. */
  lemma RecentHistoryAppend(h: seq<ChatMessage>, m: ChatMessage)
    ensures RecentHistory(h + [m]) == RecentHistory(RecentHistory(h) + [m])
  {
    var w := RecentHistory(h);
    var a := RecentHistory(h + [m]);
    var b := RecentHistory(w + [m]);
    assert |a| == |b|;
    forall i | 0 <= i < |a| ensures a[i] == b[i] {
      assert a[i] == (h + [m])[|h| + 1 - |a| + i];
      assert b[i] == (w + [m])[|w| + 1 - |b| + i];
      if i < |a| - 1 {
        assert (w + [m])[|w| + 1 - |b| + i] == w[|w| + 1 - |b| + i];
        assert w[|w| + 1 - |b| + i] == h[|h| - |w| + |w| + 1 - |b| + i];
      }
    }
  }

  /** The outbound turns: the recent history in its order, then the new message as a user turn. */
  function BuildContents(history: seq<ChatMessage>, userMessage: string): (r: seq<Content>)
    ensures |r| == Min(|history|, HISTORY_WINDOW) + 1 && |r| <= HISTORY_WINDOW + 1
    ensures r[|r| - 1] == Content("user", userMessage)
    ensures forall i :: 0 <= i < |r| - 1 ==> r[i] == ToContent(history[|history| - (|r| - 1) + i])
  {
    ToContents(RecentHistory(history)) + [Content("user", userMessage)]
  }

  /** A history that fits the window goes out whole. */
  lemma ShortHistoryWhole(history: seq<ChatMessage>, userMessage: string)
    requires |history| <= HISTORY_WINDOW
    ensures BuildContents(history, userMessage) == ToContents(history) + [Content("user", userMessage)]
  {
  }

  // --- The system prompt ---

  const PROMPT_OPENING := "\n    "
  const CONTEXT_HEADING := "\n    \n    CONTEXT DATA (Current User Inputs for this phase):\n    "
  const GUIDELINES :=
    "\n    \n    GUIDELINES:\n"
    + "    1. Keep responses concise and actionable.\n"
    + "    2. Do not do the work for the user immediately; ask probing questions to stimulate critical thinking (Socratic method).\n"
    + "    3. If the user input in the data is weak (e.g., vague learning objectives), gently critique it using ID principles.\n"
    + "    4. Reference specific Instructional Design frameworks (Gagne, Mayer, Gilbert, Moore) where relevant.\n"
    + "    "

  /** The template around the configured instruction and the serialized phase data. */
  function SystemPrompt(instruction: string, contextData: string): (r: string)
    ensures |r| == |PROMPT_OPENING| + |instruction| + |CONTEXT_HEADING| + |contextData| + |GUIDELINES|
    ensures r[|PROMPT_OPENING|..|PROMPT_OPENING| + |instruction|] == instruction
    ensures var k := |PROMPT_OPENING| + |instruction| + |CONTEXT_HEADING|; r[k..k + |contextData|] == contextData
    ensures r[|r| - |GUIDELINES|..] == GUIDELINES
  {
    var r := PROMPT_OPENING + instruction + CONTEXT_HEADING + contextData + GUIDELINES;
    var k := |PROMPT_OPENING| + |instruction| + |CONTEXT_HEADING|;
    assert r[|PROMPT_OPENING|..|PROMPT_OPENING| + |instruction|] == instruction;
    assert r[k..k + |contextData|] == contextData;
    r
  }

  /** The `systemInstruction` the request sends. */
  function SystemInstructionText(r: Request): (t: string)
    ensures |t| == |PROMPT_OPENING| + |r.instruction| + |CONTEXT_HEADING| + |r.contextData| + |GUIDELINES|
    ensures t[|PROMPT_OPENING|..|PROMPT_OPENING| + |r.instruction|] == r.instruction
    ensures var k := |PROMPT_OPENING| + |r.instruction| + |CONTEXT_HEADING|; t[k..k + |r.contextData|] == r.contextData
  {
    SystemPrompt(r.instruction, r.contextData)
  }

  /** The `generateContent` parameters of a co-pilot call. */
  function BuildRequest(instruction: string, contextData: string, history: seq<ChatMessage>, userMessage: string): (r: Request)
    ensures r.model == MODEL_NAME && r.temperature == 0.7
    ensures r.instruction == instruction && r.contextData == contextData
    ensures 1 <= |r.contents| <= HISTORY_WINDOW + 1 && r.contents[|r.contents| - 1] == Content("user", userMessage)
  {
    Request(MODEL_NAME, BuildContents(history, userMessage), instruction, contextData, 0.7)
  }

  /** `response.text || EMPTY_REPLY_TEXT`, and the error text from the `catch`: never empty. */
  function CoPilotReplyText(outcome: ApiOutcome): (r: string)
    ensures r != []
    ensures outcome.Replied? && outcome.text.Some? && outcome.text.value != [] ==> r == outcome.text.value
    ensures outcome.Replied? && (outcome.text.None? || outcome.text.value == []) ==> r == EMPTY_REPLY_TEXT
    ensures outcome.ApiError? ==> r == API_ERROR_TEXT
  {
    match outcome
    case ApiError => API_ERROR_TEXT
    case Replied(t) => if t.Some? && t.value != [] then t.value else EMPTY_REPLY_TEXT
  }

  /**
   * `generateCoPilotResponse`. The serialized phase data is the
   * `contextData` parameter; `outcome` is the SDK's answer to the request.
   */
  function GenerateCoPilotResponse(phaseId: int, contextData: string, history: seq<ChatMessage>,
                                   userMessage: string, outcome: ApiOutcome): (r: CoPilotCall)
    ensures r.Thrown? <==> Constants.FindConfig(phaseId).None?
    ensures r.Thrown? ==> r.error == INVALID_PHASE_ID
    ensures r.Sent? ==>
      && r.request.instruction == Constants.FindConfig(phaseId).value.systemInstruction
      && r.request.contextData == contextData
      && r.request.contents == BuildContents(history, userMessage)
      && r.request.model == MODEL_NAME
      && r.reply == CoPilotReplyText(outcome) && r.reply != []
  {
    match Constants.FindConfig(phaseId)
    case None => Thrown(INVALID_PHASE_ID)
    case Some(c) => Sent(BuildRequest(c.systemInstruction, contextData, history, userMessage), CoPilotReplyText(outcome))
  }

  /** The co-pilot throws exactly for a phase id outside 1..12. */
  lemma CoPilotRejectsUnknownPhase(phaseId: int, contextData: string, history: seq<ChatMessage>,
                                   userMessage: string, outcome: ApiOutcome)
    ensures GenerateCoPilotResponse(phaseId, contextData, history, userMessage, outcome).Thrown? <==> !(1 <= phaseId <= 12)
  {
  }

  // --- generateArtifact ---

  /** A `generateContent` call of the artifact helper: a single user turn. */
  datatype ArtifactCall = ArtifactCall(model: string, contents: Content, reply: string)

  /** `${phaseConfig?.title}`: the configured title, or "undefined" when the lookup fails. */
  function ArtifactPhaseTitle(phaseId: int): (r: string)
    ensures Constants.FindConfig(phaseId).Some? ==> r == Constants.FindConfig(phaseId).value.title
    ensures Constants.FindConfig(phaseId).None? ==> r == "undefined"
  {
    match Constants.FindConfig(phaseId)
    case None => "undefined"
    case Some(c) => c.title
  }

  /** The artifact prompt names the configured title of phases 1..12 and "undefined" for any other id. */
  lemma ArtifactTitleByPhaseId(phaseId: int)
    ensures 1 <= phaseId <= 12 ==> ArtifactPhaseTitle(phaseId) == Constants.PHASES_CONFIG[phaseId - 1].title
    ensures !(1 <= phaseId <= 12) ==> ArtifactPhaseTitle(phaseId) == "undefined"
  {
  }

  const TASK_OPENING := "\n    Task: "
  const PHASE_HEADING := "\n    Phase: "
  const DATA_HEADING := "\n    Data: "
  const ARTIFACT_CLOSING := "\n    \n    Please generate a draft artifact. Use markdown formatting.\n    "

  /** The artifact template: task, phase title and data, each after its heading, then the closing request. */
  function ArtifactPrompt(task: string, title: string, dataJson: string): (r: string)
    ensures |r| == |TASK_OPENING| + |task| + |PHASE_HEADING| + |title| + |DATA_HEADING| + |dataJson| + |ARTIFACT_CLOSING|
    ensures r[|TASK_OPENING|..|TASK_OPENING| + |task|] == task
    ensures var k := |TASK_OPENING| + |task| + |PHASE_HEADING|; r[k..k + |title|] == title
    ensures var k := |TASK_OPENING| + |task| + |PHASE_HEADING| + |title| + |DATA_HEADING|; r[k..k + |dataJson|] == dataJson
    ensures r[|r| - |ARTIFACT_CLOSING|..] == ARTIFACT_CLOSING
  {
    var r := TASK_OPENING + task + PHASE_HEADING + title + DATA_HEADING + dataJson + ARTIFACT_CLOSING;
    var k := |TASK_OPENING| + |task| + |PHASE_HEADING|;
    var m := k + |title| + |DATA_HEADING|;
    assert r[|TASK_OPENING|..|TASK_OPENING| + |task|] == task;
    assert r[k..k + |title|] == title;
    assert r[m..m + |dataJson|] == dataJson;
    r
  }

  /** `response.text || ""`, and "" from the `catch`. */
  function ArtifactReplyText(outcome: ApiOutcome): (r: string)
    ensures outcome.Replied? && outcome.text.Some? ==> r == outcome.text.value
    ensures outcome.Replied? && outcome.text.None? ==> r == []
    ensures outcome.ApiError? ==> r == []
  {
    match outcome
    case ApiError => []
    case Replied(t) => t.GetOr([])
  }

  /**
   * `generateArtifact`: unlike the co-pilot it does not reject an unknown
   * phase id, and its fallback is the empty text. `dataJson` is the
   * serialized phase data.
   */
  function GenerateArtifact(phaseId: int, dataJson: string, task: string, outcome: ApiOutcome): (r: ArtifactCall)
    ensures r.model == MODEL_NAME && r.contents.role == "user"
    ensures r.contents.text == ArtifactPrompt(task, ArtifactPhaseTitle(phaseId), dataJson)
    ensures r.reply == ArtifactReplyText(outcome)
    ensures r.reply == [] <==> outcome.ApiError? || outcome.text.None? || outcome.text.value == []
  {
    ArtifactCall(MODEL_NAME, Content("user", ArtifactPrompt(task, ArtifactPhaseTitle(phaseId), dataJson)), ArtifactReplyText(outcome))
  }
}
