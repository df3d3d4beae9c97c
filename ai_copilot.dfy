/**
 * components/AICopilot.tsx: the chat panel's send protocol. `handleSend`
 * is split at its `await` into two steps: `HandleSend` checks the guard,
 * appends the user turn optimistically, clears the input and raises the
 * thinking flag; `ResolveSend` merges the reply (or nothing, when the
 * service throws) and lowers the flag.
 */
module AICopilot {
  import opened Wrappers
  import opened Types
  import Js
  import App
  import Constants
  import G = GeminiService

  /**
   * The negation of `!input.trim() || isThinking`, the guard that rejects a
   * send: a send goes ahead exactly when the input holds a non-whitespace
   * character and no reply is pending.
   */
  predicate CanSend(input: string, isThinking: bool)
    ensures CanSend(input, isThinking) <==> !isThinking && exists i :: 0 <= i < |input| && !Js.IsWhitespace(input[i])
  {
    Js.TrimEmpty(input);
    Js.Trim(input) != [] && !isThinking
  }

  /** `{ ...currentPhase, chatHistory: [...currentPhase.chatHistory, userMsg] }`. */
  function OptimisticPhase(phase: Phase, userMsg: ChatMessage): (r: Phase)
    ensures r.id == phase.id && r.title == phase.title && r.description == phase.description
    ensures r.status == phase.status && r.data == phase.data
    ensures |r.chatHistory| == |phase.chatHistory| + 1
    ensures r.chatHistory[..|phase.chatHistory|] == phase.chatHistory && r.chatHistory[|phase.chatHistory|] == userMsg
  {
    phase.(chatHistory := phase.chatHistory + [userMsg])
  }

  /** `{ ...currentPhase, chatHistory: [...updatedHistory, aiMsg] }`, spread from the send-time phase. */
  function MergedPhase(phase: Phase, userMsg: ChatMessage, aiMsg: ChatMessage): (r: Phase)
    ensures r.id == phase.id && r.title == phase.title && r.description == phase.description
    ensures r.status == phase.status && r.data == phase.data
    ensures |r.chatHistory| == |phase.chatHistory| + 2
    ensures r.chatHistory[..|phase.chatHistory|] == phase.chatHistory
    ensures r.chatHistory[|phase.chatHistory|] == userMsg && r.chatHistory[|phase.chatHistory| + 1] == aiMsg
  {
    phase.(chatHistory := phase.chatHistory + [userMsg, aiMsg])
  }

  /** The merged history extends the optimistic one by the reply, which extends the prior one by the user turn. */
  lemma MergeExtendsOptimistic(phase: Phase, userMsg: ChatMessage, aiMsg: ChatMessage)
    ensures MergedPhase(phase, userMsg, aiMsg).chatHistory == OptimisticPhase(phase, userMsg).chatHistory + [aiMsg]
  {
    assert phase.chatHistory + [userMsg, aiMsg] == phase.chatHistory + [userMsg] + [aiMsg];
  }

  /**
   * What the awaiting half of `handleSend` still holds on to: the
   * send-time phase, the untrimmed input, the user turn, and the project
   * of the render whose `onUpdatePhase` it will call.
   */
  datatype PendingSend = PendingSend(phase: Phase, text: string, userMsg: ChatMessage, snapshot: Option<Project>)

  /**
   * The service call of a pending send: the send-time phase's id and its
   * history without the new turn, and the input as the message.
   * `contextData` stands for the serialized phase data.
   */
  function ReplyOf(pending: PendingSend, contextData: string, outcome: G.ApiOutcome): (r: G.CoPilotCall)
    ensures r.Sent? ==> r.request.contents == G.BuildContents(pending.phase.chatHistory, pending.text)
    ensures r.Sent? ==> r.request.contents[|r.request.contents| - 1] == G.Content("user", pending.text)
    ensures r.Sent? ==> r.reply != []
    ensures r.Thrown? ==> r.error == G.INVALID_PHASE_ID
  {
    G.GenerateCoPilotResponse(pending.phase.id, contextData, pending.phase.chatHistory, pending.text, outcome)
  }

  /** Every phase of a seeded project has an id the service accepts, so the `catch` of `handleSend` is never reached there. */
  lemma SeededPhasesAreAnswered(ps: seq<Phase>, id: int, contextData: string, history: seq<ChatMessage>,
                                text: string, outcome: G.ApiOutcome)
    requires Constants.WellFormedPhases(ps)
    requires App.FindPhase(ps, id).Some?
    ensures G.GenerateCoPilotResponse(App.FindPhase(ps, id).value.id, contextData, history, text, outcome).Sent?
  {
    App.FindWellFormed(ps, id);
    G.CoPilotRejectsUnknownPhase(id, contextData, history, text, outcome);
  }

  /**
   * Both halves of a send keep each phase's data of its id's shape, so a
   * project stays well formed, and the service keeps answering, however
   * many messages are exchanged.
   */
  lemma SendKeepsWellFormed(ps: seq<Phase>, phase: Phase, userMsg: ChatMessage, aiMsg: ChatMessage)
    requires Constants.WellFormedPhases(ps) && phase in ps
    ensures Constants.WellFormedPhases(App.WithPhaseReplaced(ps, OptimisticPhase(phase, userMsg)))
    ensures Constants.WellFormedPhases(App.WithPhaseReplaced(ps, MergedPhase(phase, userMsg, aiMsg)))
  {
    var i :| 0 <= i < |ps| && ps[i] == phase;
    assert Constants.Conforms(phase.id, phase.data);
    App.WellFormedKept(ps, phase.id, phase.data, phase.status, OptimisticPhase(phase, userMsg));
    App.WellFormedKept(ps, phase.id, phase.data, phase.status, MergedPhase(phase, userMsg, aiMsg));
  }

  // --- The reply merge as intended ---

  /** Appends the reply to the history each phase with that id has now. */
  function WithReplyAppended(ps: seq<Phase>, id: int, aiMsg: ChatMessage): (r: seq<Phase>)
    ensures |r| == |ps|
    ensures forall i :: 0 <= i < |ps| && ps[i].id == id ==> r[i] == ps[i].(chatHistory := ps[i].chatHistory + [aiMsg])
    ensures forall i :: 0 <= i < |ps| && ps[i].id != id ==> r[i] == ps[i]
  {
    if ps == [] then []
    else [if ps[0].id == id then ps[0].(chatHistory := ps[0].chatHistory + [aiMsg]) else ps[0]]
         + WithReplyAppended(ps[1..], id, aiMsg)
  }

  /** The corrected merge keeps a project well formed too. */
  lemma AppendReplyKeepsWellFormed(ps: seq<Phase>, id: int, aiMsg: ChatMessage)
    requires Constants.WellFormedPhases(ps)
    ensures Constants.WellFormedPhases(WithReplyAppended(ps, id, aiMsg))
  {
    var r := WithReplyAppended(ps, id, aiMsg);
    forall i | 0 <= i < |r| ensures r[i].id == i + 1 && Constants.Conforms(r[i].id, r[i].data) {
      assert r[i].id == ps[i].id && r[i].data == ps[i].data;
    }
  }

  /** Both are open projects with the same id. */
  predicate SameProject(a: Option<Project>, b: Option<Project>) {
    a.Some? && b.Some? && a.value.id == b.value.id
  }

  /** The reply merged into the project as it is when the reply arrives. */
  function AppendReplyIn(project: Option<Project>, id: int, aiMsg: ChatMessage): (r: Option<Project>)
    ensures project.None? <==> r.None?
    ensures project.Some? ==>
      && r.value.id == project.value.id && r.value.name == project.value.name
      && r.value.createdAt == project.value.createdAt && r.value.currentPhaseId == project.value.currentPhaseId
      && r.value.phases == WithReplyAppended(project.value.phases, id, aiMsg)
  {
    match project
    case None => None
    case Some(p) => Some(p.(phases := WithReplyAppended(p.phases, id, aiMsg)))
  }

  /** An edit made while the reply is pending survives it: appending the reply commutes with a data edit. */
  lemma {:induction false} AppendReplyKeepsEdits(ps: seq<Phase>, id: int, editId: int, data: AnyPhaseData, aiMsg: ChatMessage)
    ensures WithReplyAppended(App.WithPhaseData(ps, editId, data), id, aiMsg)
         == App.WithPhaseData(WithReplyAppended(ps, id, aiMsg), editId, data)
  {
    if ps != [] {
      AppendReplyKeepsEdits(ps[1..], id, editId, data, aiMsg);
      assert App.WithPhaseData(ps, editId, data)[1..] == App.WithPhaseData(ps[1..], editId, data);
      assert WithReplyAppended(ps, id, aiMsg)[1..] == WithReplyAppended(ps[1..], id, aiMsg);
    }
  }

  /** With nothing edited in between, the intended merge gives what the code as written gives. */
  lemma {:induction false} AppendReplyAgreesUndisturbed(ps: seq<Phase>, phase: Phase, userMsg: ChatMessage, aiMsg: ChatMessage)
    ensures WithReplyAppended(App.WithPhaseReplaced(ps, OptimisticPhase(phase, userMsg)), phase.id, aiMsg)
         == App.WithPhaseReplaced(ps, MergedPhase(phase, userMsg, aiMsg))
  {
    MergeExtendsOptimistic(phase, userMsg, aiMsg);
    if ps != [] {
      AppendReplyAgreesUndisturbed(ps[1..], phase, userMsg, aiMsg);
      assert App.WithPhaseReplaced(ps, OptimisticPhase(phase, userMsg))[1..] == App.WithPhaseReplaced(ps[1..], OptimisticPhase(phase, userMsg));
    }
  }

  /**
   * The merge as written rebuilds the project from the send-time snapshot
   * and phase, so a data edit of the phase made while the reply is
   * pending is gone once the reply arrives.
   */
  lemma StaleMergeLosesEdit(snapshot: Project, phase: Phase, userMsg: ChatMessage, aiMsg: ChatMessage, data: AnyPhaseData)
    requires App.FindPhase(snapshot.phases, phase.id) == Some(phase)
    requires data != phase.data
    ensures var edited := App.UpdatePhaseDataIn(App.ReplacePhaseIn(Some(snapshot), OptimisticPhase(phase, userMsg)), phase.id, data);
            App.FindPhase(edited.value.phases, phase.id).value.data == data
    ensures var merged := App.ReplacePhaseIn(Some(snapshot), MergedPhase(phase, userMsg, aiMsg));
            App.FindPhase(merged.value.phases, phase.id).value.data != data
  {
    var opt := OptimisticPhase(phase, userMsg);
    App.FindAfterReplace(snapshot.phases, opt, phase.id);
    App.FindAfterData(App.WithPhaseReplaced(snapshot.phases, opt), phase.id, data, phase.id);
    App.FindAfterReplace(snapshot.phases, MergedPhase(phase, userMsg, aiMsg), phase.id);
  }

  /** The intended merge keeps that edit and still appends the reply. */
  lemma AppendedReplyKeepsEdit(snapshot: Project, phase: Phase, userMsg: ChatMessage, aiMsg: ChatMessage, data: AnyPhaseData)
    requires App.FindPhase(snapshot.phases, phase.id) == Some(phase)
    ensures var edited := App.UpdatePhaseDataIn(App.ReplacePhaseIn(Some(snapshot), OptimisticPhase(phase, userMsg)), phase.id, data);
            var after := AppendReplyIn(edited, phase.id, aiMsg);
            App.FindPhase(after.value.phases, phase.id)
              == Some(MergedPhase(phase, userMsg, aiMsg).(data := data, status := Draft))
  {
    var opt := OptimisticPhase(phase, userMsg);
    var ps1 := App.WithPhaseReplaced(snapshot.phases, opt);
    App.FindAfterReplace(snapshot.phases, opt, phase.id);
    AppendReplyKeepsEdits(ps1, phase.id, phase.id, data, aiMsg);
    AppendReplyAgreesUndisturbed(snapshot.phases, phase, userMsg, aiMsg);
    App.FindAfterReplace(snapshot.phases, MergedPhase(phase, userMsg, aiMsg), phase.id);
    App.FindAfterData(App.WithPhaseReplaced(snapshot.phases, MergedPhase(phase, userMsg, aiMsg)), phase.id, data, phase.id);
  }

  /**
   * The state of one mount of the panel: the text box and the thinking
   * flag. The panel is mounted only while the workspace is shown, so each
   * return to the workspace ("Continue Project", "Start New Project")
   * makes a new `CoPilotPanel`; a send still awaited by an earlier mount
   * resolves on that earlier object.
   */
  class CoPilotPanel {
    var input: string
    var isThinking: bool

    constructor ()
      ensures input == [] && !isThinking
    {
      input := [];
      isThinking := false;
    }

    /** `handlePromptClick`: a suggested prompt becomes the input. */
    method HandlePromptClick(prompt: string)
      modifies this`input
      ensures input == prompt
    {
      input := prompt;
    }

    /**
     * The part of `handleSend` before the `await`. The panel is only shown
     * with a current phase. The guard sees only this mount's flag: a reply
     * awaited by an earlier mount does not block a send (see
     * `RemountDuringReply`). A rejected send changes nothing; otherwise the
     * user turn (with the untrimmed input) is appended through
     * `onUpdatePhase`, the input is cleared and the flag is raised.
     */
    method HandleSend(app: App.AppState, now: int) returns (pending: Option<PendingSend>)
      requires app.CurrentPhase().Some?
      modifies this, app`project
      ensures !CanSend(old(input), old(isThinking)) ==>
        pending.None? && input == old(input) && isThinking == old(isThinking) && app.project == old(app.project)
      ensures CanSend(old(input), old(isThinking)) ==>
        var userMsg := ChatMessage(User, old(input), now);
        && pending == Some(PendingSend(old(app.CurrentPhase()).value, old(input), userMsg, old(app.project)))
        && app.project == App.ReplacePhaseIn(old(app.project), OptimisticPhase(old(app.CurrentPhase()).value, userMsg))
        && app.CurrentPhase() == Some(OptimisticPhase(old(app.CurrentPhase()).value, userMsg))
        && input == [] && isThinking
    {
      if Js.Trim(input) == [] || isThinking {
        return None;
      }
      var phase := app.CurrentPhase().value;
      var userMsg := ChatMessage(User, input, now);
      var snapshot := app.project;
      App.FindAfterReplace(snapshot.value.phases, OptimisticPhase(phase, userMsg), phase.id);
      app.HandleUpdatePhaseFrom(snapshot, OptimisticPhase(phase, userMsg));
      pending := Some(PendingSend(phase, input, userMsg, snapshot));
      input := [];
      isThinking := true;
    }

    /**
     * The part of `handleSend` after the `await`, as written: on a reply,
     * the send-time phase with both turns appended goes through the
     * send-time `onUpdatePhase`; a thrown error is swallowed; either way
     * the flag is lowered.
     */
    method ResolveSend(app: App.AppState, pending: PendingSend, contextData: string, outcome: G.ApiOutcome, now: int)
      modifies this`isThinking, app`project
      ensures !isThinking
      ensures ReplyOf(pending, contextData, outcome).Thrown? ==> app.project == old(app.project)
      ensures ReplyOf(pending, contextData, outcome).Sent? ==>
        app.project == App.ReplacePhaseIn(pending.snapshot,
          MergedPhase(pending.phase, pending.userMsg, ChatMessage(Model, ReplyOf(pending, contextData, outcome).reply, now)))
    {
      var call := ReplyOf(pending, contextData, outcome);
      if call.Sent? {
        app.HandleUpdatePhaseFrom(pending.snapshot, MergedPhase(pending.phase, pending.userMsg, ChatMessage(Model, call.reply, now)));
      }
      isThinking := false;
    }

    /**
     * The corrected second step: the reply is appended to the project as it
     * is now, provided that is still the project the message was sent in;
     * a reply for a project that has since been replaced is dropped.
     */
    method ResolveSendKeepingEdits(app: App.AppState, pending: PendingSend, contextData: string, outcome: G.ApiOutcome, now: int)
      modifies this`isThinking, app`project
      ensures !isThinking
      ensures !(ReplyOf(pending, contextData, outcome).Sent? && SameProject(old(app.project), pending.snapshot)) ==>
        app.project == old(app.project)
      ensures ReplyOf(pending, contextData, outcome).Sent? && SameProject(old(app.project), pending.snapshot) ==>
        app.project == AppendReplyIn(old(app.project), pending.phase.id,
                                     ChatMessage(Model, ReplyOf(pending, contextData, outcome).reply, now))
    {
      var call := ReplyOf(pending, contextData, outcome);
      if call.Sent? && SameProject(app.project, pending.snapshot) {
        app.project := AppendReplyIn(app.project, pending.phase.id, ChatMessage(Model, call.reply, now));
      }
      isThinking := false;
    }
  }

  // --- Interleavings of a pending reply ---

  /**
   * "Back to Dashboard" and "Continue Project" while a reply is pending:
   * the new mount starts idle, so `HandleSend` on it accepts any prompt
   * with a non-whitespace character at once (`CanSend`), while the earlier
   * mount is still waiting.
   */
  method RemountDuringReply(app: App.AppState, first: CoPilotPanel, now: int)
    returns (second: CoPilotPanel, firstSend: PendingSend)
    requires app.CurrentPhase().Some? && CanSend(first.input, first.isThinking)
    modifies app, first
    ensures fresh(second) && !second.isThinking && second.input == []
    ensures first.isThinking
    ensures firstSend.snapshot == old(app.project)
  {
    var pending := first.HandleSend(app, now);
    firstSend := pending.value;
    app.ShowDashboard();
    app.ContinueProject();
    second := new CoPilotPanel();
  }

  /**
   * The first reply then arrives while the new mount awaits its own: the
   * `finally` of the earlier mount lowers that mount's flag only, so the new
   * mount stays thinking and rejects further sends until its own reply
   * arrives; the merge rebuilds the project from the first send's snapshot,
   * dropping the new mount's user turn with everything else since.
   */
  method LateReplyAfterRemount(app: App.AppState, first: CoPilotPanel, second: CoPilotPanel, firstSend: PendingSend,
                               contextData: string, outcome: G.ApiOutcome, now: int)
    requires first != second && second.isThinking
    modifies app, first
    ensures !first.isThinking && second.isThinking && !CanSend(second.input, second.isThinking)
    ensures ReplyOf(firstSend, contextData, outcome).Sent? ==>
      app.project == App.ReplacePhaseIn(firstSend.snapshot,
        MergedPhase(firstSend.phase, firstSend.userMsg, ChatMessage(Model, ReplyOf(firstSend, contextData, outcome).reply, now)))
  {
    first.ResolveSend(app, firstSend, contextData, outcome, now);
  }

  /**
   * "Back to Dashboard" and "Start New Project" while a reply is pending:
   * when the reply arrives, the merge as written puts the old project back
   * in place of the new one.
   */
  method ReplyAcrossNewProject(app: App.AppState, panel: CoPilotPanel, newId: string, createdAt: string,
                               contextData: string, outcome: G.ApiOutcome, now: int)
    returns (firstSend: PendingSend)
    requires app.CurrentPhase().Some? && CanSend(panel.input, panel.isThinking)
    modifies app, panel
    ensures firstSend.snapshot == old(app.project)
    ensures ReplyOf(firstSend, contextData, outcome).Sent? ==>
      app.project.Some? && app.project.value.id == old(app.project).value.id
      && (newId != old(app.project).value.id ==> app.project.value.id != newId)
    ensures ReplyOf(firstSend, contextData, outcome).Thrown? ==>
      app.project == Some(Constants.CreateNewProject(App.NEW_PROJECT_NAME, newId, createdAt))
  {
    var pending := panel.HandleSend(app, now);
    firstSend := pending.value;
    assert firstSend.snapshot == old(app.project);
    app.ShowDashboard();
    app.HandleCreateProject(newId, createdAt);
    panel.ResolveSend(app, firstSend, contextData, outcome, now + 1);
  }
}
