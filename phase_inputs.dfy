/**
 * The phase editors of components/PhaseInputs.tsx. Every editor builds a
 * new record by spreading the old one with one field replaced and hands it
 * to `onChange`; the action map editor appends, updates by id and removes
 * by id.
 */
module PhaseInputs {
  import opened Types
  import Constants

  // --- Phase 1 ---

  /** The phase 1 fields that have an input (`projectName` has none). */
  datatype Phase1Field = Stakeholders | BusinessGoal | TargetAudience | Constraints

  function Phase1Get(d: Phase1Data, f: Phase1Field): string {
    match f
    case Stakeholders => d.stakeholders
    case BusinessGoal => d.businessGoal
    case TargetAudience => d.targetAudience
    case Constraints => d.constraints
  }

  /** `{ ...data, [f]: v }` for a phase 1 field. */
  function EditPhase1(d: Phase1Data, f: Phase1Field, v: string): (r: Phase1Data)
    ensures Phase1Get(r, f) == v
    ensures forall g :: g != f ==> Phase1Get(r, g) == Phase1Get(d, g)
    ensures r.projectName == d.projectName
  {
    match f
    case Stakeholders => d.(stakeholders := v)
    case BusinessGoal => d.(businessGoal := v)
    case TargetAudience => d.(targetAudience := v)
    case Constraints => d.(constraints := v)
  }

  // --- Phase 2 ---

  /** The phase 2 fields that have an input (`gapAnalysis` has none). */
  datatype Phase2Field = CurrentPerformance | DesiredPerformance | RootCause | Evidence

  function Phase2Get(d: Phase2Data, f: Phase2Field): string {
    match f
    case CurrentPerformance => d.currentPerformance
    case DesiredPerformance => d.desiredPerformance
    case RootCause => d.rootCause
    case Evidence => d.evidence
  }

  /** `{ ...data, [f]: v }` for a phase 2 field. */
  function EditPhase2(d: Phase2Data, f: Phase2Field, v: string): (r: Phase2Data)
    ensures Phase2Get(r, f) == v
    ensures forall g :: g != f ==> Phase2Get(r, g) == Phase2Get(d, g)
    ensures r.gapAnalysis == d.gapAnalysis
  {
    match f
    case CurrentPerformance => d.(currentPerformance := v)
    case DesiredPerformance => d.(desiredPerformance := v)
    case RootCause => d.(rootCause := v)
    case Evidence => d.(evidence := v)
  }

  // --- Phase 4 ---

  /** The phase 4 fields that have an input (`cognitiveLoadCheck` has none). */
  datatype Phase4Field = SmeQuestions | RawContent | CuratedContent

  function Phase4Get(d: Phase4Data, f: Phase4Field): string {
    match f
    case SmeQuestions => d.smeQuestions
    case RawContent => d.rawContent
    case CuratedContent => d.curatedContent
  }

  /** `{ ...data, [f]: v }` for a phase 4 field. */
  function EditPhase4(d: Phase4Data, f: Phase4Field, v: string): (r: Phase4Data)
    ensures Phase4Get(r, f) == v
    ensures forall g :: g != f ==> Phase4Get(r, g) == Phase4Get(d, g)
    ensures r.cognitiveLoadCheck == d.cognitiveLoadCheck
  {
    match f
    case SmeQuestions => d.(smeQuestions := v)
    case RawContent => d.(rawContent := v)
    case CuratedContent => d.(curatedContent := v)
  }

  // --- Phase 3: the action map ---

  /** `{ ...data, measurableGoal: v }`. */
  function EditGoal(d: Phase3Data, v: string): (r: Phase3Data)
    ensures r.measurableGoal == v && r.actions == d.actions
  {
    d.(measurableGoal := v)
  }

  /** `keyof ActionMapItem`. */
  datatype ActionField = IdField | BehaviorField | ActivityField | InfoField

  function ActionGet(a: ActionMapItem, f: ActionField): string {
    match f
    case IdField => a.id
    case BehaviorField => a.behavior
    case ActivityField => a.activity
    case InfoField => a.info
  }

  /** `{ ...a, [field]: val }`. */
  function SetActionField(a: ActionMapItem, f: ActionField, v: string): (r: ActionMapItem)
    ensures ActionGet(r, f) == v
    ensures forall g :: g != f ==> ActionGet(r, g) == ActionGet(a, g)
  {
    match f
    case IdField => a.(id := v)
    case BehaviorField => a.(behavior := v)
    case ActivityField => a.(activity := v)
    case InfoField => a.(info := v)
  }

  /**
   * The ids of a list of actions, in order. The same projection as
   * `App.PhaseIds`, over action rows, whose ids are strings.
   */
  function ActionIds(s: seq<ActionMapItem>): (r: seq<string>)
    ensures |r| == |s| && forall i :: 0 <= i < |s| ==> r[i] == s[i].id
  {
    if s == [] then [] else [s[0].id] + ActionIds(s[1..])
  }

  predicate DistinctIds(s: seq<ActionMapItem>) {
    forall i, j :: 0 <= i < j < |s| ==> s[i].id != s[j].id
  }

  /** The action a new row starts as; `newId` stands for `crypto.randomUUID()`. */
  function BlankAction(newId: string): (r: ActionMapItem)
    ensures r.id == newId
    ensures forall f :: f != IdField ==> ActionGet(r, f) == ""
  {
    ActionMapItem(newId, "", "", "")
  }

  /** `addAction`: `{ ...data, actions: [...data.actions, newItem] }`. */
  function AddAction(d: Phase3Data, newId: string): (r: Phase3Data)
    ensures r.measurableGoal == d.measurableGoal
    ensures |r.actions| == |d.actions| + 1
    ensures r.actions[..|d.actions|] == d.actions
    ensures r.actions[|d.actions|] == BlankAction(newId)
  {
    d.(actions := d.actions + [BlankAction(newId)])
  }

  /** `actions.map(a => a.id === id ? { ...a, [f]: v } : a)`. */
  function UpdateWhere(s: seq<ActionMapItem>, id: string, f: ActionField, v: string): (r: seq<ActionMapItem>)
    ensures |r| == |s|
    ensures forall i :: 0 <= i < |s| ==> r[i] == if s[i].id == id then SetActionField(s[i], f, v) else s[i]
  {
    if s == [] then []
    else [if s[0].id == id then SetActionField(s[0], f, v) else s[0]] + UpdateWhere(s[1..], id, f, v)
  }

  /** `updateAction(id, field, val)`. */
  function UpdateAction(d: Phase3Data, id: string, f: ActionField, v: string): (r: Phase3Data)
    ensures r.measurableGoal == d.measurableGoal && |r.actions| == |d.actions|
    ensures forall i :: 0 <= i < |d.actions| && d.actions[i].id != id ==> r.actions[i] == d.actions[i]
    ensures forall i :: 0 <= i < |d.actions| && d.actions[i].id == id ==>
      ActionGet(r.actions[i], f) == v && forall g :: g != f ==> ActionGet(r.actions[i], g) == ActionGet(d.actions[i], g)
    ensures f != IdField ==> ActionIds(r.actions) == ActionIds(d.actions)
  {
    var r := d.(actions := UpdateWhere(d.actions, id, f, v));
    assert f != IdField ==> ActionIds(r.actions) == ActionIds(d.actions);
    r
  }

  /** `actions.filter(a => a.id !== id)`. */
  function WithoutId(s: seq<ActionMapItem>, id: string): (r: seq<ActionMapItem>)
    ensures |r| <= |s|
    ensures forall a :: a in r <==> a in s && a.id != id
    ensures (forall i :: 0 <= i < |s| ==> s[i].id != id) ==> r == s
  {
    if s == [] then []
    else if s[0].id == id then WithoutId(s[1..], id)
    else [s[0]] + WithoutId(s[1..], id)
  }

  /** `removeAction(id)`. */
  function RemoveAction(d: Phase3Data, id: string): (r: Phase3Data)
    ensures r.measurableGoal == d.measurableGoal
    ensures forall a :: a in r.actions <==> a in d.actions && a.id != id
  {
    d.(actions := WithoutId(d.actions, id))
  }

  /** How many actions carry `id`. */
  function CountId(s: seq<ActionMapItem>, id: string): nat {
    if s == [] then 0 else (if s[0].id == id then 1 else 0) + CountId(s[1..], id)
  }

  /** Removal drops exactly the items with that id. */
  lemma {:induction false} WithoutIdLength(s: seq<ActionMapItem>, id: string)
    ensures |WithoutId(s, id)| == |s| - CountId(s, id)
  {
    if s != [] { WithoutIdLength(s[1..], id); }
  }

  /** Removal keeps the survivors in their original order: it distributes over concatenation. */
  lemma {:induction false} WithoutIdAppend(a: seq<ActionMapItem>, b: seq<ActionMapItem>, id: string)
    ensures WithoutId(a + b, id) == WithoutId(a, id) + WithoutId(b, id)
  {
    if a == [] {
      assert a + b == b;
    } else {
      assert (a + b)[1..] == a[1..] + b;
      WithoutIdAppend(a[1..], b, id);
    }
  }

  /** Removing the row just added, under its fresh id, gives back the data as it was. */
  lemma RemoveAfterAdd(d: Phase3Data, newId: string)
    requires forall i :: 0 <= i < |d.actions| ==> d.actions[i].id != newId
    ensures RemoveAction(AddAction(d, newId), newId) == d
  {
    WithoutIdAppend(d.actions, [BlankAction(newId)], newId);
    assert WithoutId([BlankAction(newId)], newId) == [];
  }

  /** Updating an id that no row carries changes nothing. */
  lemma UpdateUnknownIsNoop(d: Phase3Data, id: string, f: ActionField, v: string)
    requires forall i :: 0 <= i < |d.actions| ==> d.actions[i].id != id
    ensures UpdateAction(d, id, f, v) == d
  {
    assert UpdateAction(d, id, f, v).actions == d.actions;
  }

  /** With fresh ids for new rows and no edit of the id field, the ids stay distinct. */
  lemma EditsKeepIdsDistinct(d: Phase3Data, newId: string, id: string, f: ActionField, v: string)
    requires DistinctIds(d.actions)
    requires forall i :: 0 <= i < |d.actions| ==> d.actions[i].id != newId
    requires f != IdField
    ensures DistinctIds(AddAction(d, newId).actions)
    ensures DistinctIds(UpdateAction(d, id, f, v).actions)
    ensures DistinctIds(RemoveAction(d, id).actions)
  {
    WithoutIdDistinct(d.actions, id);
  }

  lemma {:induction false} WithoutIdDistinct(s: seq<ActionMapItem>, id: string)
    requires DistinctIds(s)
    ensures DistinctIds(WithoutId(s, id))
  {
    if s != [] {
      WithoutIdDistinct(s[1..], id);
      assert forall a :: a in s[1..] ==> a.id != s[0].id;
    }
  }

  /** Editing a row and then removing it is the same as removing it. */
  lemma {:induction false} RemoveAfterUpdate(s: seq<ActionMapItem>, id: string, f: ActionField, v: string)
    requires f != IdField
    ensures WithoutId(UpdateWhere(s, id, f, v), id) == WithoutId(s, id)
  {
    if s != [] {
      RemoveAfterUpdate(s[1..], id, f, v);
      assert UpdateWhere(s, id, f, v)[1..] == UpdateWhere(s[1..], id, f, v);
    }
  }

  // --- The id switch ---

  /** Which editor `PhaseInputs` shows. */
  datatype Editor = KickoffEditor | AnalysisEditor | ActionMapEditor | ContentEditor | UnderConstruction

  function EditorFor(id: int): (r: Editor)
    ensures r == UnderConstruction <==> Constants.InitialPhaseData(id).None?
  {
    if id == 1 then KickoffEditor
    else if id == 2 then AnalysisEditor
    else if id == 3 then ActionMapEditor
    else if id == 4 then ContentEditor
    else UnderConstruction
  }

  /**
   * Exactly the phases with seeded initial data have an editor, and each editor
   * edits the record its phase is seeded with.
   */
  lemma EditorMatchesSeed(id: int)
    ensures EditorFor(id) != UnderConstruction <==> Constants.InitialPhaseData(id).Some?
    ensures EditorFor(id) == KickoffEditor <==> Constants.SeedData(id).Kickoff?
    ensures EditorFor(id) == AnalysisEditor <==> Constants.SeedData(id).NeedsAnalysis?
    ensures EditorFor(id) == ActionMapEditor <==> Constants.SeedData(id).ActionMap?
    ensures EditorFor(id) == ContentEditor <==> Constants.SeedData(id).SmeContent?
  {
  }
}
