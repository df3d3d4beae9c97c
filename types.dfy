/**
 * The phase data model of types.ts: the review status, the chat message,
 * the records of phases 1-4, the open string-keyed fallback, Phase,
 * Project and PhaseConfig. The shapes of phases 5, 6, 8 and 12 are not
 * declared in types.ts; the ones here hold exactly the fields the artifact
 * view reads.
 */
module Types {
  import opened Wrappers

  /** The review status of a phase. */
  datatype PhaseStatus = NotStarted | Draft | NeedsReview | Approved

  /** The string each member of the `PhaseStatus` enum carries. */
  function StatusValue(s: PhaseStatus): (r: string)
    ensures r != [] && forall i :: 0 <= i < |r| ==> 'A' <= r[i] <= 'Z' || r[i] == '_'
  {
    match s
    case NotStarted => "NOT_STARTED"
    case Draft => "DRAFT"
    case NeedsReview => "NEEDS_REVIEW"
    case Approved => "APPROVED"
  }

  /** `Object.values(PhaseStatus)`: the members in declaration order. */
  const ALL_STATUSES: seq<PhaseStatus> := [NotStarted, Draft, NeedsReview, Approved]

  /** Reads an enum string back as a status; the inverse of StatusValue. */
  function ParseStatus(v: string): (r: Option<PhaseStatus>)
    ensures r.Some? ==> StatusValue(r.value) == v
    ensures r.None? <==> forall s: PhaseStatus :: StatusValue(s) != v
  {
    if v == "NOT_STARTED" then Some(NotStarted)
    else if v == "DRAFT" then Some(Draft)
    else if v == "NEEDS_REVIEW" then Some(NeedsReview)
    else if v == "APPROVED" then Some(Approved)
    else None
  }

  /** There are exactly four statuses, listed once each, with four distinct values. */
  lemma StatusesEnumerated()
    ensures |ALL_STATUSES| == 4
    ensures forall s: PhaseStatus :: s in ALL_STATUSES
    ensures forall i, j :: 0 <= i < j < 4 ==> StatusValue(ALL_STATUSES[i]) != StatusValue(ALL_STATUSES[j])
  {
    forall s: PhaseStatus ensures s in ALL_STATUSES {
      match s
      case NotStarted => assert ALL_STATUSES[0] == s;
      case Draft => assert ALL_STATUSES[1] == s;
      case NeedsReview => assert ALL_STATUSES[2] == s;
      case Approved => assert ALL_STATUSES[3] == s;
    }
  }

  /** Every status survives the trip through its enum string. */
  lemma StatusRoundTrip(s: PhaseStatus)
    ensures ParseStatus(StatusValue(s)) == Some(s)
  {
  }

  /** Who wrote a chat message: the user or the assistant model. */
  datatype MessageRole = User | Model

  /** The string each member of the `MessageRole` enum carries. */
  function RoleValue(r: MessageRole): (w: string)
    ensures w != [] && forall i :: 0 <= i < |w| ==> 'a' <= w[i] <= 'z'
  {
    match r
    case User => "user"
    case Model => "model"
  }

  lemma RolesEnumerated(r: MessageRole)
    ensures r == User || r == Model
    ensures RoleValue(User) != RoleValue(Model)
  {
  }

  /** `timestamp` is milliseconds since the epoch. */
  datatype ChatMessage = ChatMessage(role: MessageRole, text: string, timestamp: int)

  // --- Records of the four phases with editors ---

  /** Phase 1, kickoff. */
  datatype Phase1Data = Phase1Data(
    projectName: string,
    stakeholders: string,
    businessGoal: string,
    targetAudience: string,
    constraints: string)

  /** Phase 2, needs analysis. */
  datatype Phase2Data = Phase2Data(
    currentPerformance: string,
    desiredPerformance: string,
    gapAnalysis: string,
    rootCause: string,
    evidence: string)

  /** One row of the action map: an observable behaviour, its practice activity and the minimum information. */
  datatype ActionMapItem = ActionMapItem(id: string, behavior: string, activity: string, info: string)

  /** Phase 3, action map: the refined goal and the ordered list of actions. */
  datatype Phase3Data = Phase3Data(measurableGoal: string, actions: seq<ActionMapItem>)

  /** Phase 4, content with the subject matter expert. */
  datatype Phase4Data = Phase4Data(
    smeQuestions: string,
    rawContent: string,
    curatedContent: string,
    cognitiveLoadCheck: string)

  // --- The open fallback ---

  /** A value stored under a key of the open record; numbers are integers here. */
  datatype JsValue =
    | JsUndefined
    | JsNull
    | JsBool(b: bool)
    | JsNumber(n: int)
    | JsString(s: string)
    | JsArray(items: seq<JsValue>)
    | JsObject(fields: seq<Field>)

  /** One own property of an object, in insertion order. */
  datatype Field = Field(key: string, value: JsValue)

  /** `obj[key]` on an object built by a literal: the value of the first own property with that key. */
  function Lookup(fs: seq<Field>, key: string): (r: Option<JsValue>)
    ensures r.None? <==> forall i :: 0 <= i < |fs| ==> fs[i].key != key
    ensures r.Some? ==> exists i :: 0 <= i < |fs| && fs[i].key == key && fs[i].value == r.value
  {
    if fs == [] then None
    else if fs[0].key == key then Some(fs[0].value)
    else
      var r := Lookup(fs[1..], key);
      assert forall i :: 1 <= i < |fs| ==> fs[i] == fs[1..][i - 1];
      r
  }

  /** Looking up in an object literal goes through its properties from the first. */
  lemma LookupCons(f: Field, rest: seq<Field>)
    ensures forall key :: Lookup([f] + rest, key) == if f.key == key then Some(f.value) else Lookup(rest, key)
  {
    assert ([f] + rest)[1..] == rest;
  }

  /** JavaScript truthiness: `undefined`, `null`, `false`, `0` and `""` are falsy. */
  predicate Truthy(v: JsValue)
    ensures !Truthy(v) <==> v == JsUndefined || v == JsNull || v == JsBool(false) || v == JsNumber(0) || v == JsString("")
  {
    match v
    case JsUndefined => false
    case JsNull => false
    case JsBool(b) => b
    case JsNumber(n) => n != 0
    case JsString(s) => s != ""
    case JsArray(_) => true
    case JsObject(_) => true
  }

  /** `AnyPhaseData`: one of the four phase records or an open string-keyed record. */
  datatype AnyPhaseData =
    | Kickoff(p1: Phase1Data)
    | NeedsAnalysis(p2: Phase2Data)
    | ActionMap(p3: Phase3Data)
    | SmeContent(p4: Phase4Data)
    | Bag(fields: seq<Field>)

  datatype Phase = Phase(
    id: int,
    title: string,
    description: string,
    status: PhaseStatus,
    data: AnyPhaseData,
    chatHistory: seq<ChatMessage>)

  datatype Project = Project(
    id: string,
    name: string,
    createdAt: string,
    currentPhaseId: int,
    phases: seq<Phase>)

  datatype PhaseConfig = PhaseConfig(
    id: int,
    title: string,
    shortTitle: string,
    purpose: string,
    systemInstruction: string,
    initialPrompts: seq<string>)

  // --- Shapes read by the artifact view only ---

  /** A learning objective; `level` is a Bloom's taxonomy level name. */
  datatype ObjectiveItem = ObjectiveItem(id: string, text: string, level: string)

  /** Phase 5: `objectives` may be missing. */
  datatype Phase5Data = Phase5Data(objectives: Option<seq<ObjectiveItem>>)

  /** Phase 6, design document. */
  datatype Phase6Data = Phase6Data(
    overview: string,
    learningStrategy: string,
    structure: string,
    storylineNotes: string,
    technicalRequirements: string)

  /** The screen-type tags of a storyboard screen. */
  datatype ScreenType = TitleScreen | MenuScreen | ContentScreen | InteractionScreen | QuizScreen | VideoScreen | SummaryScreen

  function ScreenTypeValue(t: ScreenType): string {
    match t
    case TitleScreen => "Title"
    case MenuScreen => "Menu"
    case ContentScreen => "Content"
    case InteractionScreen => "Interaction"
    case QuizScreen => "Quiz"
    case VideoScreen => "Video"
    case SummaryScreen => "Summary"
  }

  /** One storyboard screen; `screenType` (the field `type`) may be missing. */
  datatype StoryboardScreen = StoryboardScreen(
    id: string,
    title: string,
    screenType: Option<ScreenType>,
    visualDescription: string,
    audioScript: string,
    interactionNote: string)

  /** Phase 8: `screens` may be missing. */
  datatype Phase8Data = Phase8Data(screens: Option<seq<StoryboardScreen>>)

  /** Phase 12, the four Kirkpatrick evaluation levels. */
  datatype Phase12Data = Phase12Data(
    l1_reaction: string,
    l2_learning: string,
    l3_behavior: string,
    l4_results: string)
}
