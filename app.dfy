/**
 * The state and handlers of App.tsx: the open project, the dashboard or
 * workspace view and the active phase id, and the three handlers that
 * rewrite the project's phase list by id.
 */
module App {
  import opened Wrappers
  import opened Types
  import Constants

  datatype View = Dashboard | Workspace

  /** The name `handleCreateProject` gives a new project. */
  const NEW_PROJECT_NAME := "New Instructional Design Project"

  // --- The phase list, by id ---

  /** `phases.find(p => p.id === id)`: the first phase with that id. */
  function FindPhase(ps: seq<Phase>, id: int): (r: Option<Phase>)
    ensures r.None? <==> forall i :: 0 <= i < |ps| ==> ps[i].id != id
    ensures r.Some? ==> exists i :: 0 <= i < |ps| && ps[i] == r.value && r.value.id == id
                                    && forall j :: 0 <= j < i ==> ps[j].id != id
  {
    if ps == [] then None
    else if ps[0].id == id then Some(ps[0])
    else
      var r := FindPhase(ps[1..], id);
      assert forall i :: 1 <= i < |ps| ==> ps[i] == ps[1..][i - 1];
      r
  }

  /** The ids of a phase list, in order. */
  function PhaseIds(ps: seq<Phase>): (r: seq<int>)
    ensures |r| == |ps| && forall i :: 0 <= i < |ps| ==> r[i] == ps[i].id
  {
    if ps == [] then [] else [ps[0].id] + PhaseIds(ps[1..])
  }

  /** The data edit of one phase: new data, and the status forced to DRAFT. */
  function Edited(p: Phase, data: AnyPhaseData): (r: Phase)
    ensures r.data == data && r.status == Draft
    ensures r.(data := p.data, status := p.status) == p
  {
    p.(data := data, status := Draft)
  }

  /** `phases.map(p => p.id === id ? { ...p, data, status: DRAFT } : p)`. */
  function WithPhaseData(ps: seq<Phase>, id: int, data: AnyPhaseData): (r: seq<Phase>)
    ensures |r| == |ps|
    ensures forall i :: 0 <= i < |ps| && ps[i].id == id ==>
      && r[i].data == data && r[i].status == Draft
      && r[i].id == id && r[i].title == ps[i].title && r[i].description == ps[i].description
      && r[i].chatHistory == ps[i].chatHistory
    ensures forall i :: 0 <= i < |ps| && ps[i].id != id ==> r[i] == ps[i]
  {
    if ps == [] then []
    else [if ps[0].id == id then Edited(ps[0], data) else ps[0]] + WithPhaseData(ps[1..], id, data)
  }

  /** `phases.map(p => p.id === q.id ? q : p)`. */
  function WithPhaseReplaced(ps: seq<Phase>, q: Phase): (r: seq<Phase>)
    ensures |r| == |ps|
    ensures forall i :: 0 <= i < |ps| && ps[i].id == q.id ==> r[i] == q
    ensures forall i :: 0 <= i < |ps| && ps[i].id != q.id ==> r[i] == ps[i]
  {
    if ps == [] then []
    else [if ps[0].id == q.id then q else ps[0]] + WithPhaseReplaced(ps[1..], q)
  }

  /** `phases.map(p => p.id === id ? { ...p, status } : p)`. */
  function WithPhaseStatus(ps: seq<Phase>, id: int, s: PhaseStatus): (r: seq<Phase>)
    ensures |r| == |ps|
    ensures forall i :: 0 <= i < |ps| && ps[i].id == id ==>
      && r[i].status == s
      && r[i].id == id && r[i].title == ps[i].title && r[i].description == ps[i].description
      && r[i].data == ps[i].data && r[i].chatHistory == ps[i].chatHistory
    ensures forall i :: 0 <= i < |ps| && ps[i].id != id ==> r[i] == ps[i]
  {
    if ps == [] then []
    else [if ps[0].id == id then ps[0].(status := s) else ps[0]] + WithPhaseStatus(ps[1..], id, s)
  }

  // --- The handlers on the project ---

  /** `handleUpdatePhaseData`: nothing without a project; otherwise only the phase list changes. */
  function UpdatePhaseDataIn(project: Option<Project>, id: int, data: AnyPhaseData): (r: Option<Project>)
    ensures project.None? <==> r.None?
    ensures project.Some? ==>
      && r.value.id == project.value.id && r.value.name == project.value.name
      && r.value.createdAt == project.value.createdAt && r.value.currentPhaseId == project.value.currentPhaseId
      && r.value.phases == WithPhaseData(project.value.phases, id, data)
  {
    match project
    case None => None
    case Some(p) => Some(p.(phases := WithPhaseData(p.phases, id, data)))
  }

  /** `handleUpdatePhase`: nothing without a project; otherwise only the phase list changes. */
  function ReplacePhaseIn(project: Option<Project>, q: Phase): (r: Option<Project>)
    ensures project.None? <==> r.None?
    ensures project.Some? ==>
      && r.value.id == project.value.id && r.value.name == project.value.name
      && r.value.createdAt == project.value.createdAt && r.value.currentPhaseId == project.value.currentPhaseId
      && r.value.phases == WithPhaseReplaced(project.value.phases, q)
  {
    match project
    case None => None
    case Some(p) => Some(p.(phases := WithPhaseReplaced(p.phases, q)))
  }

  /** `handlePhaseStatusChange`: nothing without a project; otherwise only the phase list changes. */
  function SetPhaseStatusIn(project: Option<Project>, id: int, s: PhaseStatus): (r: Option<Project>)
    ensures project.None? <==> r.None?
    ensures project.Some? ==>
      && r.value.id == project.value.id && r.value.name == project.value.name
      && r.value.createdAt == project.value.createdAt && r.value.currentPhaseId == project.value.currentPhaseId
      && r.value.phases == WithPhaseStatus(project.value.phases, id, s)
  {
    match project
    case None => None
    case Some(p) => Some(p.(phases := WithPhaseStatus(p.phases, id, s)))
  }

  /** `project?.phases.find(p => p.id === activePhaseId)`. */
  function CurrentPhaseOf(project: Option<Project>, activeId: int): (r: Option<Phase>)
    ensures project.None? ==> r.None?
    ensures r.Some? ==> r.value.id == activeId && r.value in project.value.phases
    ensures project.Some? && (exists i :: 0 <= i < |project.value.phases| && project.value.phases[i].id == activeId) ==> r.Some?
  {
    match project
    case None => None
    case Some(p) => FindPhase(p.phases, activeId)
  }

  /**
   * The status choices of the header select: every status in declaration order, with its value.
   * The visible option text, `s.replace('_', ' ')`, is `Canvas.StatusLabel`.
   */
  function StatusOptions(): (r: seq<(string, PhaseStatus)>)
    ensures |r| == 4
    ensures forall i :: 0 <= i < 4 ==> r[i].1 == ALL_STATUSES[i] && r[i].0 == StatusValue(ALL_STATUSES[i])
    ensures forall s: PhaseStatus :: (StatusValue(s), s) in r
  {
    StatusesEnumerated();
    var r := seq(4, i requires 0 <= i < 4 => (StatusValue(ALL_STATUSES[i]), ALL_STATUSES[i]));
    forall s: PhaseStatus ensures (StatusValue(s), s) in r {
      assert s in ALL_STATUSES;
      var i :| 0 <= i < |ALL_STATUSES| && ALL_STATUSES[i] == s;
      assert r[i] == (StatusValue(s), s);
    }
    r
  }

  /** Each option's value is read back, by the select's handler, as its own status. */
  lemma {:induction false} StatusOptionsRoundTrip(i: nat)
    requires i < 4
    ensures ParseStatus(StatusOptions()[i].0) == Some(StatusOptions()[i].1)
  {
    StatusRoundTrip(StatusOptions()[i].1);
  }

  // --- What the handlers keep ---

  /** A data edit of the active phase is what that phase's lookup then returns; other lookups are unaffected. */
  lemma {:induction false} FindAfterData(ps: seq<Phase>, id: int, data: AnyPhaseData, other: int)
    ensures FindPhase(WithPhaseData(ps, id, data), id) == (if FindPhase(ps, id).Some? then Some(Edited(FindPhase(ps, id).value, data)) else None)
    ensures other != id ==> FindPhase(WithPhaseData(ps, id, data), other) == FindPhase(ps, other)
  {
    if ps != [] {
      FindAfterData(ps[1..], id, data, other);
      assert WithPhaseData(ps, id, data)[1..] == WithPhaseData(ps[1..], id, data);
    }
  }

  /** A replacement is what the lookup of its id then returns, when that id is present; other lookups are unaffected. */
  lemma {:induction false} FindAfterReplace(ps: seq<Phase>, q: Phase, other: int)
    ensures FindPhase(WithPhaseReplaced(ps, q), q.id) == (if FindPhase(ps, q.id).Some? then Some(q) else None)
    ensures other != q.id ==> FindPhase(WithPhaseReplaced(ps, q), other) == FindPhase(ps, other)
  {
    if ps != [] {
      FindAfterReplace(ps[1..], q, other);
      assert WithPhaseReplaced(ps, q)[1..] == WithPhaseReplaced(ps[1..], q);
    }
  }

  /** A status change is what the lookup of that id then returns; other lookups are unaffected. */
  lemma {:induction false} FindAfterStatus(ps: seq<Phase>, id: int, s: PhaseStatus, other: int)
    ensures FindPhase(WithPhaseStatus(ps, id, s), id) == (if FindPhase(ps, id).Some? then Some(FindPhase(ps, id).value.(status := s)) else None)
    ensures other != id ==> FindPhase(WithPhaseStatus(ps, id, s), other) == FindPhase(ps, other)
  {
    if ps != [] {
      FindAfterStatus(ps[1..], id, s, other);
      assert WithPhaseStatus(ps, id, s)[1..] == WithPhaseStatus(ps[1..], id, s);
    }
  }

  /** None of the three rewrites changes the ids, so none changes the order or count of phases. */
  lemma IdsKept(ps: seq<Phase>, id: int, data: AnyPhaseData, q: Phase, s: PhaseStatus)
    ensures PhaseIds(WithPhaseData(ps, id, data)) == PhaseIds(ps)
    ensures PhaseIds(WithPhaseReplaced(ps, q)) == PhaseIds(ps)
    ensures PhaseIds(WithPhaseStatus(ps, id, s)) == PhaseIds(ps)
  {
  }

  /** On the twelve seeded phases, the lookup of an id 1..12 is the phase at position id - 1. */
  lemma FindWellFormed(ps: seq<Phase>, id: int)
    requires Constants.WellFormedPhases(ps)
    ensures FindPhase(ps, id).Some? <==> 1 <= id <= 12
    ensures 1 <= id <= 12 ==> FindPhase(ps, id) == Some(ps[id - 1])
  {
    var r := FindPhase(ps, id);
    if 1 <= id <= 12 {
      assert ps[id - 1].id == id;
      var i :| 0 <= i < |ps| && ps[i] == r.value && r.value.id == id && forall j :: 0 <= j < i ==> ps[j].id != id;
      assert i == id - 1;
    }
  }

  /** A status change, and a data edit of the shape that id holds, keep the phase list well formed. */
  lemma WellFormedKept(ps: seq<Phase>, id: int, data: AnyPhaseData, s: PhaseStatus, q: Phase)
    requires Constants.WellFormedPhases(ps)
    ensures Constants.WellFormedPhases(WithPhaseStatus(ps, id, s))
    ensures Constants.Conforms(id, data) ==> Constants.WellFormedPhases(WithPhaseData(ps, id, data))
    ensures Constants.Conforms(q.id, q.data) ==> Constants.WellFormedPhases(WithPhaseReplaced(ps, q))
  {
  }

  /** Repeating a data edit or a status change has no further effect. */
  lemma {:induction false} EditsIdempotent(ps: seq<Phase>, id: int, data: AnyPhaseData, s: PhaseStatus)
    ensures WithPhaseData(WithPhaseData(ps, id, data), id, data) == WithPhaseData(ps, id, data)
    ensures WithPhaseStatus(WithPhaseStatus(ps, id, s), id, s) == WithPhaseStatus(ps, id, s)
  {
    if ps != [] {
      EditsIdempotent(ps[1..], id, data, s);
      assert WithPhaseData(ps, id, data)[1..] == WithPhaseData(ps[1..], id, data);
      assert WithPhaseStatus(ps, id, s)[1..] == WithPhaseStatus(ps[1..], id, s);
    }
  }

  /** A data edit after a status change wins: the phase is DRAFT again whatever was chosen, APPROVED included. */
  lemma {:induction false} EditAfterStatusIsDraft(ps: seq<Phase>, id: int, s: PhaseStatus, data: AnyPhaseData)
    ensures WithPhaseData(WithPhaseStatus(ps, id, s), id, data) == WithPhaseData(ps, id, data)
  {
    if ps != [] {
      EditAfterStatusIsDraft(ps[1..], id, s, data);
      assert WithPhaseStatus(ps, id, s)[1..] == WithPhaseStatus(ps[1..], id, s);
    }
  }

  /** Edits of two different phases commute. */
  lemma {:induction false} EditsOfDifferentPhasesCommute(ps: seq<Phase>, a: int, data: AnyPhaseData, b: int, s: PhaseStatus)
    requires a != b
    ensures WithPhaseStatus(WithPhaseData(ps, a, data), b, s) == WithPhaseData(WithPhaseStatus(ps, b, s), a, data)
  {
    if ps != [] {
      EditsOfDifferentPhasesCommute(ps[1..], a, data, b, s);
      assert WithPhaseData(ps, a, data)[1..] == WithPhaseData(ps[1..], a, data);
      assert WithPhaseStatus(ps, b, s)[1..] == WithPhaseStatus(ps[1..], b, s);
    }
  }

  /** Putting back a phase as it is changes nothing; replacing with an absent id changes nothing. */
  lemma {:induction false} ReplaceNoops(ps: seq<Phase>, q: Phase)
    ensures q in ps && (forall i :: 0 <= i < |ps| && ps[i].id == q.id ==> ps[i] == q) ==> WithPhaseReplaced(ps, q) == ps
    ensures (forall i :: 0 <= i < |ps| ==> ps[i].id != q.id) ==> WithPhaseReplaced(ps, q) == ps
  {
  }

  // --- The component state ---

  class AppState {
    var project: Option<Project>
    var view: View
    var activePhaseId: int

    /** The first render: no project, the dashboard, phase 1. */
    constructor ()
      ensures project == None && view == Dashboard && activePhaseId == 1
    {
      project := None;
      view := Dashboard;
      activePhaseId := 1;
    }

    /** `currentPhase`, derived on every render. */
    function CurrentPhase(): (r: Option<Phase>)
      reads this
      ensures r.Some? ==> project.Some? && r.value.id == activePhaseId && r.value in project.value.phases
    {
      CurrentPhaseOf(project, activePhaseId)
    }

    /** The workspace is shown only when it is selected and a project is open. */
    predicate ShowsWorkspace()
      reads this
      ensures ShowsWorkspace() <==> !(view == Dashboard || project.None?)
    {
      view == Workspace && project.Some?
    }

    /** `handleCreateProject`; the random id and the clock reading are parameters. */
    method HandleCreateProject(newId: string, createdAt: string)
      modifies this
      ensures project == Some(Constants.CreateNewProject(NEW_PROJECT_NAME, newId, createdAt))
      ensures activePhaseId == 1 && view == Workspace
      ensures ShowsWorkspace()
      ensures CurrentPhase() == Some(project.value.phases[0]) && CurrentPhase().value.id == 1
      ensures CurrentPhase().value.status == NotStarted && CurrentPhase().value.chatHistory == []
    {
      var p := Constants.CreateNewProject(NEW_PROJECT_NAME, newId, createdAt);
      project := Some(p);
      activePhaseId := 1;
      view := Workspace;
      FindWellFormed(p.phases, 1);
    }

    /** `handleUpdatePhaseData`, the `onChange` of the phase editors. */
    method HandleUpdatePhaseData(data: AnyPhaseData)
      modifies this`project
      ensures project == UpdatePhaseDataIn(old(project), activePhaseId, data)
      ensures old(CurrentPhase()).Some? ==> CurrentPhase() == Some(Edited(old(CurrentPhase()).value, data))
      ensures old(CurrentPhase()).None? ==> CurrentPhase().None?
    {
      FindAfterData(if project.Some? then project.value.phases else [], activePhaseId, data, activePhaseId);
      project := UpdatePhaseDataIn(project, activePhaseId, data);
    }

    /**
     * `handleUpdatePhase` as created by a render in which the project was
     * `snapshot`: the closure rebuilds the project from that value, not from
     * the state at the time it is called.
     */
    method HandleUpdatePhaseFrom(snapshot: Option<Project>, q: Phase)
      modifies this`project
      ensures project == ReplacePhaseIn(snapshot, q)
    {
      project := ReplacePhaseIn(snapshot, q);
    }

    /** `handleUpdatePhase` called from the current render. */
    method HandleUpdatePhase(q: Phase)
      modifies this`project
      ensures project == ReplacePhaseIn(old(project), q)
    {
      HandleUpdatePhaseFrom(project, q);
    }

    /** `handlePhaseStatusChange`: any status, with no transition guard. */
    method HandlePhaseStatusChange(s: PhaseStatus)
      modifies this`project
      ensures project == SetPhaseStatusIn(old(project), activePhaseId, s)
      ensures old(CurrentPhase()).Some? ==> CurrentPhase() == Some(old(CurrentPhase()).value.(status := s))
    {
      FindAfterStatus(if project.Some? then project.value.phases else [], activePhaseId, s, activePhaseId);
      project := SetPhaseStatusIn(project, activePhaseId, s);
    }

    /** A click on a sidebar entry. */
    method SelectPhase(id: int)
      modifies this`activePhaseId
      ensures activePhaseId == id
    {
      activePhaseId := id;
    }

    /** "Back to Dashboard". */
    method ShowDashboard()
      modifies this`view
      ensures view == Dashboard && !ShowsWorkspace()
    {
      view := Dashboard;
    }

    /** "Continue Project", offered on the dashboard only when a project is open. */
    method ContinueProject()
      requires project.Some?
      modifies this`view
      ensures view == Workspace && ShowsWorkspace()
    {
      view := Workspace;
    }
  }
}
