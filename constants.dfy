/**
 * The static phase table of constants.ts, the initial data of phases 1-4, and
 * the construction of a new project with its twelve seeded phases.
 */
module Constants {
  import opened Wrappers
  import opened Types

  // Per-phase texts of the configuration table.
  const KICKOFF_PURPOSE := "Define the business problem, not the training solution. Align stakeholders on the 'Why'."
  const KICKOFF_INSTRUCTION := "You are a Senior Instructional Designer conducting a Kickoff Meeting. Your goal is to move the user from 'We need a course' to a clear business problem definition. Ask probing questions about the true business goal and constraints. Do not accept 'Training' as a goal; the goal must be a business metric. Reference: Consulting skills."
  const KICKOFF_PROMPTS: seq<string> := [
    "Help me refine my business goal.",
    "What questions should I ask the stakeholders?",
    "Critique my audience analysis."]
  const ANALYSIS_PURPOSE := "Determine the root cause of the performance gap. Is it lack of skill, or environment/motivation?"
  const ANALYSIS_INSTRUCTION := "You are a Performance Analyst. Use the Gilbert Behavior Engineering Model. If the user suggests training for a motivation or environment problem, push back gently. Help them distinguish between 'Know-How' gaps and 'Want-To' gaps."
  const ANALYSIS_PROMPTS: seq<string> := [
    "Is this a training problem?",
    "Help me identify the root cause.",
    "Suggest data collection methods."]
  const ACTION_MAP_PURPOSE := "Map business goals to observable behaviors and practice activities. Avoid 'information dump'."
  const ACTION_MAP_INSTRUCTION := "You are an expert in Cathy Moore's Action Mapping. Strictly enforce that 'Actions' must be observable behaviors, not 'Understand' or 'Know'. If a user types 'Understand', correct them. Focus on what people need to DO."
  const ACTION_MAP_PROMPTS: seq<string> := [
    "Convert this topic into a behavior.",
    "Brainstorm practice activities for this action.",
    "Is this goal measurable?"]
  const CONTENT_PURPOSE := "Curate essential information needed to perform the actions. Reduce Cognitive Load."
  const CONTENT_INSTRUCTION := "You are a Learning Scientist specializing in Cognitive Load Theory and Mayer's Multimedia Principles. Help the user strip away 'nice to have' content and keep only the 'need to have'. Flag dense text. Suggest structuring content around the actions defined in Phase 3."
  const CONTENT_PROMPTS: seq<string> := [
    "Identify extraneous cognitive load.",
    "Generate questions for the Subject Matter Expert.",
    "Summarize this raw content for a novice."]
  const OBJECTIVES_PURPOSE := "Draft Bloom's Taxonomy aligned objectives."
  const OBJECTIVES_INSTRUCTION := "Act as an ID expert."
  const DESIGN_DOC_PURPOSE := "Blueprint the learning experience."
  const DESIGN_DOC_INSTRUCTION := "Act as an ID expert."
  const PLAN_PURPOSE := "Timeline and resource allocation."
  const PLAN_INSTRUCTION := "Act as a Project Manager."
  const STORYBOARD_PURPOSE := "Visual and text layout of screens."
  const STORYBOARD_INSTRUCTION := "Act as a UX Designer."
  const SCENARIOS_PURPOSE := "Design decision-making paths."
  const SCENARIOS_INSTRUCTION := "Act as a Game Designer."
  const MVP_PURPOSE := "Rapid prototype development."
  const MVP_INSTRUCTION := "Act as a Developer."
  const FINAL_PURPOSE := "Polishing and QA."
  const FINAL_INSTRUCTION := "Act as a QA Specialist."
  const EVAL_PURPOSE := "Kirkpatrick Levels 1-4."
  const EVAL_INSTRUCTION := "Act as a Data Analyst."

  const PHASES_CONFIG: seq<PhaseConfig> := [
      PhaseConfig(1, "1. Kickoff Meeting", "Kickoff", KICKOFF_PURPOSE, KICKOFF_INSTRUCTION, KICKOFF_PROMPTS),
      PhaseConfig(2, "2. Needs Analysis", "Analysis", ANALYSIS_PURPOSE, ANALYSIS_INSTRUCTION, ANALYSIS_PROMPTS),
      PhaseConfig(3, "3. Action Mapping", "Action Map", ACTION_MAP_PURPOSE, ACTION_MAP_INSTRUCTION, ACTION_MAP_PROMPTS),
      PhaseConfig(4, "4. Learning Content (SME)", "Content", CONTENT_PURPOSE, CONTENT_INSTRUCTION, CONTENT_PROMPTS),
      PhaseConfig(5, "5. Learning Objectives", "Objectives", OBJECTIVES_PURPOSE, OBJECTIVES_INSTRUCTION, []),
      PhaseConfig(6, "6. Design Document", "Design Doc", DESIGN_DOC_PURPOSE, DESIGN_DOC_INSTRUCTION, []),
      PhaseConfig(7, "7. Project Plan", "Plan", PLAN_PURPOSE, PLAN_INSTRUCTION, []),
      PhaseConfig(8, "8. Storyboarding", "Storyboard", STORYBOARD_PURPOSE, STORYBOARD_INSTRUCTION, []),
      PhaseConfig(9, "9. Branching Scenarios", "Scenarios", SCENARIOS_PURPOSE, SCENARIOS_INSTRUCTION, []),
      PhaseConfig(10, "10. MVP Build", "MVP", MVP_PURPOSE, MVP_INSTRUCTION, []),
      PhaseConfig(11, "11. Final Build", "Final", FINAL_PURPOSE, FINAL_INSTRUCTION, []),
      PhaseConfig(12, "12. Evaluation", "Eval", EVAL_PURPOSE, EVAL_INSTRUCTION, [])
    ]

  /** The table has twelve entries whose ids are 1..12, in increasing order. */
  lemma ConfigTable()
    ensures |PHASES_CONFIG| == 12
    ensures forall i :: 0 <= i < 12 ==> PHASES_CONFIG[i].id == i + 1
    ensures forall i, j :: 0 <= i < j < 12 ==> PHASES_CONFIG[i].id < PHASES_CONFIG[j].id
  {
  }

  /**
   * `cs.find(p => p.id === id)`: the first entry with that id. The same
   * first-match search as `App.FindPhase`, kept separate because it runs
   * over configurations rather than phases and the two modules would
   * otherwise need a shared projection of the `id` field.
   */
  function FindConfigIn(cs: seq<PhaseConfig>, id: int): (r: Option<PhaseConfig>)
    ensures r.None? <==> forall i :: 0 <= i < |cs| ==> cs[i].id != id
    ensures r.Some? ==> exists i :: 0 <= i < |cs| && cs[i] == r.value && r.value.id == id
                                    && forall j :: 0 <= j < i ==> cs[j].id != id
  {
    if cs == [] then None
    else if cs[0].id == id then Some(cs[0])
    else
      var r := FindConfigIn(cs[1..], id);
      assert forall i :: 1 <= i < |cs| ==> cs[i] == cs[1..][i - 1];
      r
  }

  /**
   * `PHASES_CONFIG.find(p => p.id === id)`, computed by position: the table
   * holds ids 1..12 in order, and `FindConfigSpec` proves that this is the
   * first-match search.
   */
  function FindConfig(id: int): (r: Option<PhaseConfig>)
    ensures r.Some? <==> 1 <= id <= 12
    ensures r.Some? ==> r.value.id == id
  {
    ConfigTable();
    if 1 <= id <= 12 then Some(PHASES_CONFIG[id - 1]) else None
  }

  /** On a table whose ids count up from 1, the first-match search finds id k at position k - 1. */
  lemma FindConfigInCounting(cs: seq<PhaseConfig>, id: int)
    requires forall i :: 0 <= i < |cs| ==> cs[i].id == i + 1
    ensures FindConfigIn(cs, id) == if 1 <= id <= |cs| then Some(cs[id - 1]) else None
  {
    if 1 <= id <= |cs| {
      assert cs[id - 1].id == id;
      var i :| 0 <= i < |cs| && cs[i] == FindConfigIn(cs, id).value && FindConfigIn(cs, id).value.id == id
               && forall j :: 0 <= j < i ==> cs[j].id != id;
      assert i == id - 1;
    }
  }

  /** The positional lookup is the `find` over the table, and it gives entry id - 1 for the ids 1..12. */
  lemma FindConfigSpec(id: int)
    ensures FindConfig(id) == FindConfigIn(PHASES_CONFIG, id)
    ensures 1 <= id <= 12 ==> FindConfig(id) == Some(PHASES_CONFIG[id - 1])
  {
    ConfigTable();
    FindConfigInCounting(PHASES_CONFIG, id);
  }

  /** `INITIAL_PHASE_DATA[id]`: the empty record for ids 1-4, nothing for other ids. */
  function InitialPhaseData(id: int): (r: Option<AnyPhaseData>)
    ensures r.Some? <==> 1 <= id <= 4
    ensures r.Some? ==> Conforms(id, r.value)
  {
    if id == 1 then Some(Kickoff(Phase1Data("", "", "", "", "")))
    else if id == 2 then Some(NeedsAnalysis(Phase2Data("", "", "", "", "")))
    else if id == 3 then Some(ActionMap(Phase3Data("", [])))
    else if id == 4 then Some(SmeContent(Phase4Data("", "", "", "")))
    else None
  }

  /** `INITIAL_PHASE_DATA[id] || {}`. */
  function SeedData(id: int): (r: AnyPhaseData)
    ensures Conforms(id, r)
    ensures !(1 <= id <= 4) ==> r == Bag([])
  {
    InitialPhaseData(id).GetOr(Bag([]))
  }

  /** The data variant belongs to the phase id: the record of phases 1-4, the open record otherwise. */
  predicate Conforms(id: int, d: AnyPhaseData) {
    match d
    case Kickoff(_) => id == 1
    case NeedsAnalysis(_) => id == 2
    case ActionMap(_) => id == 3
    case SmeContent(_) => id == 4
    case Bag(_) => !(1 <= id <= 4)
  }

  /** Every text field is empty, the action list is empty and the open record has no keys. */
  predicate IsBlank(d: AnyPhaseData) {
    match d
    case Kickoff(p) => p == Phase1Data("", "", "", "", "")
    case NeedsAnalysis(p) => p == Phase2Data("", "", "", "", "")
    case ActionMap(p) => p.measurableGoal == "" && p.actions == []
    case SmeContent(p) => p == Phase4Data("", "", "", "")
    case Bag(fs) => fs == []
  }

  /** The seeded data of every id has that id's shape and holds nothing yet. */
  lemma SeedDataBlank(id: int)
    ensures Conforms(id, SeedData(id)) && IsBlank(SeedData(id))
    ensures (1 <= id <= 4) <==> InitialPhaseData(id).Some?
  {
  }

  /** A phase as seeded from its configuration entry. */
  function SeedPhase(c: PhaseConfig): (r: Phase)
    ensures r.id == c.id && r.title == c.title && r.description == c.purpose
    ensures r.status == NotStarted && r.chatHistory == [] && Conforms(c.id, r.data)
  {
    Phase(c.id, c.title, c.purpose, NotStarted, SeedData(c.id), [])
  }

  /** `cs.map(SeedPhase)`. */
  function SeedPhases(cs: seq<PhaseConfig>): (r: seq<Phase>)
    ensures |r| == |cs|
    ensures forall i :: 0 <= i < |cs| ==> r[i] == SeedPhase(cs[i])
  {
    if cs == [] then [] else [SeedPhase(cs[0])] + SeedPhases(cs[1..])
  }

  /** The twelve phases of a project: ids 1..12, shapes matching the ids. */
  predicate WellFormedPhases(ps: seq<Phase>) {
    |ps| == 12 && forall i :: 0 <= i < |ps| ==> ps[i].id == i + 1 && Conforms(ps[i].id, ps[i].data)
  }

  /**
   * `createNewProject(name)`; the random id and the creation time are
   * supplied by the caller.
   */
  function CreateNewProject(name: string, newId: string, createdAt: string): (r: Project)
    ensures r.id == newId && r.name == name && r.createdAt == createdAt && r.currentPhaseId == 1
    ensures WellFormedPhases(r.phases)
    ensures forall i :: 0 <= i < |r.phases| ==>
      var p := r.phases[i];
      && p.title == PHASES_CONFIG[i].title
      && p.description == PHASES_CONFIG[i].purpose
      && p.status == NotStarted
      && p.chatHistory == []
      && p.data == SeedData(i + 1)
      && IsBlank(p.data)
  {
    ConfigTable();
    forall id { SeedDataBlank(id); }
    Project(newId, name, createdAt, 1, SeedPhases(PHASES_CONFIG))
  }
}
