/**
 * The analyst chat panel (app/components/chat-interface.tsx) as a state
 * machine. The component's `useState` hooks and refs are the fields of
 * `ChatInterface`; every event handler, inline button handler and timer
 * callback is one method over them, and each method's frame names exactly
 * the setters the handler calls.
 *
 * `Date.now()`, `new Date()` and `Math.random()` are parameters: the current
 * time, the ids built from it (assumed fresh) and the index of the random
 * pick. The backend's fixtures (audit items, insights, message texts,
 * reasoning lines) are parameters too.
 *
 * The three timers a send schedules for one turn fire in order (400, 2000
 * and 4000 ms after the same send); the ghost field `turns` records how far
 * each turn has come so that each timer method can require its turn's
 * earlier timers to have fired. Timers of different turns interleave freely.
 */
module ChatPanel {
  import opened Common
  import opened PanelValues

  datatype Mode = Ask | Analyst

  /** How far a turn's timers have run. */
  datatype Phase = Submitted | Thinking | Summarizing | Complete {
    predicate InFlight() { this == Thinking || this == Summarizing }
  }

  /** What the panel asks its host to do: revert a range of the workbook. */
  datatype HostEvent = RevertRange(cellRange: string)

  /** `forEach` over the audit items and their steps, writing `'pending'` for
      every item id and every step id into a fresh dictionary. */
  method InitialApprovals(items: seq<AuditItem>) returns (approvals: map<string, Approval>)
    ensures approvals.Keys == ApprovalKeys(items)
    ensures forall k | k in approvals :: approvals[k] == Pending
  {
    approvals := map[];
    var i := 0;
    while i < |items|
      invariant 0 <= i <= |items|
      invariant approvals.Keys == ApprovalKeys(items[..i])
      invariant forall k | k in approvals :: approvals[k] == Pending
    {
      var item := items[i];
      approvals := approvals[item.id := Pending];
      var j := 0;
      while j < |item.steps|
        invariant 0 <= j <= |item.steps|
        invariant approvals.Keys == ApprovalKeys(items[..i]) + {item.id} + StepKeys(item.steps[..j])
        invariant forall k | k in approvals :: approvals[k] == Pending
      {
        approvals := approvals[item.steps[j].id := Pending];
        assert item.steps[..j + 1] == item.steps[..j] + [item.steps[j]];
        j := j + 1;
      }
      assert item.steps[..j] == item.steps;
      assert items[..i + 1] == items[..i] + [item];
      ApprovalKeysSnoc(items[..i], item);
      i := i + 1;
    }
    assert items[..i] == items;
  }

  /** One if the turn's thinking message should be in the log, else zero. */
  function InFlightShare(turns: map<string, Phase>, t: string): nat {
    if t in turns && turns[t].InFlight() then 1 else 0
  }

  /** A start time is recorded exactly for the turns whose first timer fired,
      and the log holds exactly one thinking message for each turn in flight
      and none for any other turn. */
  ghost predicate TurnsAgree(log: seq<Message>, turns: map<string, Phase>, starts: map<string, int>) {
    && starts.Keys <= turns.Keys
    && (forall t | t in turns :: t in starts <==> turns[t] != Submitted)
    && (forall t :: ThinkingCount(log, t) == InFlightShare(turns, t))
  }

  /** A send opens a new turn and appends a message that is not a thinking
      message. */
  lemma OpenTurnAgrees(log: seq<Message>, turns: map<string, Phase>, starts: map<string, int>,
                       t: string, m: Message)
    requires TurnsAgree(log, turns, starts)
    requires t !in turns && !IsThinking(m)
    ensures TurnsAgree(log + [m], turns[t := Submitted], starts)
  {
    forall u ensures ThinkingCount(log + [m], u) == InFlightShare(turns[t := Submitted], u) {
      ThinkingCountAppend(log, m, u);
    }
  }

  /** The first timer records the start and appends the turn's thinking
      message. */
  lemma BeginTurnAgrees(log: seq<Message>, turns: map<string, Phase>, starts: map<string, int>,
                        t: string, now: int)
    requires TurnsAgree(log, turns, starts)
    requires t in turns && turns[t] == Submitted
    ensures TurnsAgree(log + [ThinkingMessage(t, now)], turns[t := Thinking], starts[t := now])
  {
    var m := ThinkingMessage(t, now);
    forall u ensures ThinkingCount(log + [m], u) == InFlightShare(turns[t := Thinking], u) {
      ThinkingCountAppend(log, m, u);
    }
  }

  /** The second timer appends a message that is not a thinking message. */
  lemma InterimAgrees(log: seq<Message>, turns: map<string, Phase>, starts: map<string, int>,
                      t: string, m: Message)
    requires TurnsAgree(log, turns, starts)
    requires t in turns && turns[t] == Thinking && !IsThinking(m)
    ensures TurnsAgree(log + [m], turns[t := Summarizing], starts)
  {
    forall u ensures ThinkingCount(log + [m], u) == InFlightShare(turns[t := Summarizing], u) {
      ThinkingCountAppend(log, m, u);
    }
  }

  /** The third timer finds the turn's thinking message, removes it and
      completes the turn. */
  lemma FinalizeAgrees(log: seq<Message>, turns: map<string, Phase>, starts: map<string, int>,
                       t: string, summary: Message, final: Message)
    requires TurnsAgree(log, turns, starts)
    requires t in turns && turns[t] == Summarizing
    requires !IsThinking(summary) && !IsThinking(final)
    ensures HasThinking(log, t)
    ensures !HasThinking(FinalizeLog(log, t, summary, final), t)
    ensures TurnsAgree(FinalizeLog(log, t, summary, final), turns[t := Complete], starts)
  {
    var r := FinalizeLog(log, t, summary, final);
    assert ThinkingCount(log, t) == 1;
    ThinkingCountMeaning(log, t);
    forall u ensures ThinkingCount(r, u) == InFlightShare(turns[t := Complete], u) {
      FinalizeLogCount(log, t, summary, final, u);
    }
    ThinkingCountMeaning(r, t);
  }

  /** Toggling a summary leaves the turns' agreement with the log intact. */
  lemma ToggleAgrees(log: seq<Message>, turns: map<string, Phase>, starts: map<string, int>, id: string)
    requires TurnsAgree(log, turns, starts)
    ensures TurnsAgree(ToggleOpen(log, id), turns, starts)
  {
    forall u ensures ThinkingCount(ToggleOpen(log, id), u) == InFlightShare(turns, u) {
      ToggleOpenKeepsCount(log, id, u);
    }
  }

  class ChatInterface {
    var messages: seq<Message>
    var inputValue: string
    var mode: Mode
    var isProcessing: bool
    var auditData: seq<AuditItem>
    var toolApprovals: map<string, Approval>
    var stepApprovals: map<string, Approval>
    var expandedSections: map<string, bool>
    var thinkingStartedAt: Option<int>
    var lastThinkingDurationMs: Option<int>
    /** `thinkingStartRef.current`: the start time of each turn's thinking. */
    var thinkingStart: map<string, int>
    /** `currentThinkingIdRef.current` */
    var currentThinkingId: Option<string>
    var showInsights: bool
    var errorInsights: seq<Insight>
    var currentInsightIndex: int
    var versions: seq<VersionSnapshot>
    var activeVersionId: string
    var currentPlan: seq<PlanStep>
    var showPlanBar: bool
    var selectedRanges: seq<string>

    /** The turns sent so far, by `thoughtId`, and how far their timers ran. */
    ghost var turns: map<string, Phase>

    ghost predicate Valid()
      reads this
    {
      // the version ledger keeps its first entry and the active id names an entry
      && |versions| >= 1 && versions[0] == OriginalVersion
      && activeVersionId in VersionIds(versions)
      // the selection chips never hold a range twice
      && NoDuplicates(selectedRanges)
      // the insight cursor is at least -1
      && currentInsightIndex >= -1
      // the log and the start times agree with how far each turn has run
      && TurnsAgree(messages, turns, thinkingStart)
    }

    /** The hooks' initial values. */
    constructor ()
      ensures Valid()
      ensures messages == [] && inputValue == "" && mode == Ask && !isProcessing
      ensures auditData == [] && toolApprovals == map[] && stepApprovals == map[]
      ensures expandedSections == map[] && thinkingStart == map[] && turns == map[]
      ensures showInsights && errorInsights == [] && currentInsightIndex == 0
      ensures versions == [OriginalVersion] && activeVersionId == "v1"
      ensures currentPlan == [] && !showPlanBar && selectedRanges == []
      ensures thinkingStartedAt == None && lastThinkingDurationMs == None && currentThinkingId == None
    {
      messages := [];
      inputValue := "";
      mode := Ask;
      isProcessing := false;
      auditData := [];
      toolApprovals := map[];
      stepApprovals := map[];
      expandedSections := map[];
      thinkingStartedAt := None;
      lastThinkingDurationMs := None;
      thinkingStart := map[];
      currentThinkingId := None;
      showInsights := true;
      errorInsights := [];
      currentInsightIndex := 0;
      versions := [OriginalVersion];
      activeVersionId := "v1";
      currentPlan := [];
      showPlanBar := false;
      selectedRanges := [];
      turns := map[];
    }

    /** The state the analyst-mode part of a send leaves: the four-step plan
        proposed with every step selected, the audit items installed with
        every item id and step id pending in the tool approval map, and the
        scanned insights shown. */
    ghost predicate Proposed(audit: seq<AuditItem>, insights: seq<Insight>)
      reads this`currentPlan, this`showPlanBar, this`auditData, this`toolApprovals,
            this`errorInsights, this`showInsights
    {
      && currentPlan == AnalystPlan() && showPlanBar
      && auditData == audit
      && toolApprovals.Keys == ApprovalKeys(audit)
      && (forall k | k in toolApprovals :: toolApprovals[k] == Pending)
      && errorInsights == insights && showInsights
    }

    /** The input box's onChange. */
    method SetInput(text: string)
      requires Valid()
      modifies this`inputValue
      ensures Valid() && inputValue == text
    {
      inputValue := text;
    }

    /** The Ask / Analyst menu entries. */
    method SetMode(m: Mode)
      requires Valid()
      modifies this`mode
      ensures Valid() && mode == m
    {
      mode := m;
    }

    /* -------------------------------------------------------------------- */
    /* Conversation turn                                                     */

    /** `handleSendMessage`, up to scheduling its three timers. A blank input
        changes nothing. Otherwise exactly one user message carrying the
        input is appended and the turn `thoughtId` opens; in analyst mode the
        four-step plan is proposed with every step selected, the audit items
        are installed with every item id and step id pending in the TOOL
        approval map (the step approval map is not touched), and the insights
        are rescanned without resetting the insight cursor. */
    method Submit(messageId: string, thoughtId: string, now: int,
                  audit: seq<AuditItem>, insights: seq<Insight>)
      requires Valid()
      requires thoughtId !in turns
      modifies this`messages, this`inputValue, this`isProcessing, this`currentThinkingId,
               this`currentPlan, this`showPlanBar, this`auditData, this`toolApprovals,
               this`errorInsights, this`showInsights, this`turns
      ensures Valid()
      ensures IsBlank(old(inputValue)) ==> unchanged(this)
      ensures !IsBlank(old(inputValue)) ==>
        && messages == old(messages) + [Message(messageId, User, old(inputValue), now, None)]
        && inputValue == "" && isProcessing && currentThinkingId == Some(thoughtId)
        && turns == old(turns)[thoughtId := Submitted]
      ensures !IsBlank(old(inputValue)) && mode == Analyst ==> Proposed(audit, insights)
      ensures mode == Ask ==>
        unchanged(this`currentPlan, this`showPlanBar, this`auditData, this`toolApprovals,
                  this`errorInsights, this`showInsights)
    {
      TrimEmptyIffBlank(inputValue);
      if Trim(inputValue) == [] {
        return;
      }
      OpenTurn(messageId, thoughtId, now);
      if mode == Analyst {
        ProposeAnalysis(audit, insights);
      }
    }

    /** The send button and the Enter key: both are disabled while a turn is
        processing, so a send through the UI never starts while one is. */
    method ClickSend(messageId: string, thoughtId: string, now: int,
                     audit: seq<AuditItem>, insights: seq<Insight>)
      requires Valid()
      requires !isProcessing && thoughtId !in turns
      modifies this`messages, this`inputValue, this`isProcessing, this`currentThinkingId,
               this`currentPlan, this`showPlanBar, this`auditData, this`toolApprovals,
               this`errorInsights, this`showInsights, this`turns
      ensures Valid()
      ensures IsBlank(old(inputValue)) ==> unchanged(this)
      ensures !IsBlank(old(inputValue)) ==>
        && messages == old(messages) + [Message(messageId, User, old(inputValue), now, None)]
        && inputValue == "" && isProcessing && currentThinkingId == Some(thoughtId)
        && turns == old(turns)[thoughtId := Submitted]
      ensures !IsBlank(old(inputValue)) && mode == Analyst ==> Proposed(audit, insights)
      ensures mode == Ask ==>
        unchanged(this`currentPlan, this`showPlanBar, this`auditData, this`toolApprovals,
                  this`errorInsights, this`showInsights)
    {
      Submit(messageId, thoughtId, now, audit, insights);
    }

    /** The part of `handleSendMessage` every non-blank send runs: exactly
        one user message carrying the input is appended, the input is
        cleared and the turn `thoughtId` opens. */
    method OpenTurn(messageId: string, thoughtId: string, now: int)
      requires Valid()
      requires thoughtId !in turns
      modifies this`messages, this`inputValue, this`isProcessing, this`currentThinkingId, this`turns
      ensures Valid()
      ensures messages == old(messages) + [Message(messageId, User, old(inputValue), now, None)]
      ensures inputValue == "" && isProcessing && currentThinkingId == Some(thoughtId)
      ensures turns == old(turns)[thoughtId := Submitted]
    {
      var m := Message(messageId, User, inputValue, now, None);
      OpenTurnAgrees(messages, turns, thinkingStart, thoughtId, m);
      messages := messages + [m];
      inputValue := "";
      isProcessing := true;
      currentThinkingId := Some(thoughtId);
      turns := turns[thoughtId := Submitted];
    }

    /** The analyst-mode part of `handleSendMessage`: the four-step plan is
        proposed with every step selected, the audit items are installed with
        every item id and step id pending in the TOOL approval map (the step
        approval map is not touched), and the insights are rescanned without
        resetting the insight cursor. */
    method ProposeAnalysis(audit: seq<AuditItem>, insights: seq<Insight>)
      requires Valid()
      modifies this`currentPlan, this`showPlanBar, this`auditData, this`toolApprovals,
               this`errorInsights, this`showInsights
      ensures Valid() && Proposed(audit, insights)
    {
      currentPlan := AnalystPlan();
      showPlanBar := true;
      auditData := audit;
      toolApprovals := InitialApprovals(audit);
      ScanForErrors(insights);
    }

    /** The first timer (400 ms): record the thinking start under this turn's
        key and append exactly one thinking message tagged with it. */
    method BeginThinking(thoughtId: string, now: int)
      requires Valid()
      requires thoughtId in turns && turns[thoughtId] == Submitted
      modifies this`thinkingStartedAt, this`thinkingStart, this`messages, this`turns
      ensures Valid()
      ensures thinkingStartedAt == Some(now)
      ensures thoughtId !in old(thinkingStart) && thinkingStart == old(thinkingStart)[thoughtId := now]
      ensures messages == old(messages) + [ThinkingMessage(thoughtId, now)]
      ensures turns == old(turns)[thoughtId := Thinking]
    {
      var log := messages;
      var m := ThinkingMessage(thoughtId, now);
      thinkingStartedAt := Some(now);
      thinkingStart := thinkingStart[thoughtId := now];
      messages := messages + [m];
      BeginTurnAgrees(log, turns, old(thinkingStart), thoughtId, now);
      turns := turns[thoughtId := Thinking];
    }

    /** The second timer (2000 ms): when a (truthy) start was recorded for this
        turn, the last duration becomes the time since then; one interim
        system message is appended. */
    method Interim(thoughtId: string, messageId: string, now: int)
      requires Valid()
      requires thoughtId in turns && turns[thoughtId] == Thinking
      modifies this`lastThinkingDurationMs, this`messages, this`turns
      ensures Valid()
      ensures thoughtId in thinkingStart
      ensures lastThinkingDurationMs ==
        if thinkingStart[thoughtId] != 0 then Some(now - thinkingStart[thoughtId])
        else old(lastThinkingDurationMs)
      ensures messages == old(messages) + [Message(messageId, System, InterimText, now, None)]
      ensures turns == old(turns)[thoughtId := Summarizing]
    {
      var log := messages;
      var m := Message(messageId, System, InterimText, now, None);
      if thoughtId in thinkingStart && thinkingStart[thoughtId] != 0 {
        lastThinkingDurationMs := Some(now - thinkingStart[thoughtId]);
      }
      messages := messages + [m];
      InterimAgrees(log, turns, thinkingStart, thoughtId, m);
      turns := turns[thoughtId := Summarizing];
    }

    /** The third timer (4000 ms): the duration is `now` minus this turn's
        recorded start (0 when that start is falsy). The turn's thinking
        message, found by kind and `thoughtId`, is replaced in place by the
        summary, so the log grows by exactly one: the final message. */
    method Finalize(thoughtId: string, finalId: string, now: int)
      requires Valid()
      requires thoughtId in turns && turns[thoughtId] == Summarizing
      modifies this`lastThinkingDurationMs, this`messages, this`isProcessing, this`turns
      ensures Valid()
      ensures thoughtId in thinkingStart
      ensures lastThinkingDurationMs == Some(ThinkingDuration(thinkingStart, thoughtId, now))
      ensures messages == FinalizeLog(old(messages), thoughtId,
                                      SummaryMessage(thoughtId, ThinkingDuration(thinkingStart, thoughtId, now), now),
                                      Message(finalId, System, FinalText, now, None))
      ensures |messages| == |old(messages)| + 1
      ensures forall j | 0 <= j < |old(messages)| && !IsThinkingFor(old(messages)[j], thoughtId) ::
        messages[j] == old(messages)[j]
      ensures !HasThinking(messages, thoughtId)
      ensures !isProcessing
      ensures turns == old(turns)[thoughtId := Complete]
    {
      var duration := if thoughtId in thinkingStart && thinkingStart[thoughtId] != 0
                      then now - thinkingStart[thoughtId] else 0;
      lastThinkingDurationMs := Some(duration);
      var summary := SummaryMessage(thoughtId, duration, now);
      var final := Message(finalId, System, FinalText, now, None);
      var log := messages;
      FinalizeAgrees(log, turns, thinkingStart, thoughtId, summary, final);
      var next := messages;
      var idx := FindThinking(next, thoughtId);
      if idx.Some? {
        next := next[idx.value := summary];
      } else {
        next := next + [summary];
      }
      next := next + [final];
      assert next == FinalizeLog(log, thoughtId, summary, final);
      messages := next;
      isProcessing := false;
      turns := turns[thoughtId := Complete];
    }

    /** The summary's Show/Hide button, rendered on summary messages only. */
    method ToggleSummary(k: nat)
      requires Valid()
      requires k < |messages| && messages[k].meta.Some? && messages[k].meta.value.kind == SummaryKind
      modifies this`messages
      ensures Valid()
      ensures messages == ToggleOpen(old(messages), old(messages)[k].id)
    {
      ToggleAgrees(messages, turns, thinkingStart, messages[k].id);
      messages := ToggleOpen(messages, messages[k].id);
    }

    /* -------------------------------------------------------------------- */
    /* Audit trail                                                           */

    /** An audit item's Accept button: sets exactly that item's key of the
        tool approval map. */
    method AcceptItem(i: nat)
      requires Valid()
      requires i < |auditData|
      modifies this`toolApprovals
      ensures Valid()
      ensures toolApprovals == old(toolApprovals)[auditData[i].id := Approved]
    {
      toolApprovals := toolApprovals[auditData[i].id := Approved];
    }

    /** An audit item's Reject button. */
    method RejectItem(i: nat)
      requires Valid()
      requires i < |auditData|
      modifies this`toolApprovals
      ensures Valid()
      ensures toolApprovals == old(toolApprovals)[auditData[i].id := Rejected]
    {
      toolApprovals := toolApprovals[auditData[i].id := Rejected];
    }

    /** An audit item's Expand / Collapse button. */
    method ToggleSection(i: nat)
      requires Valid()
      requires i < |auditData|
      modifies this`expandedSections
      ensures Valid()
      ensures expandedSections == ToggleExpanded(old(expandedSections), auditData[i].id)
    {
      expandedSections := ToggleExpanded(expandedSections, auditData[i].id);
    }

    /** A step's accept button: shown only in an expanded item and only for a
        revertible step; sets exactly that step's key of the step approval map. */
    method AcceptStep(i: nat, j: nat)
      requires Valid()
      requires i < |auditData| && IsExpanded(expandedSections, auditData[i].id)
      requires j < |auditData[i].steps| && auditData[i].steps[j].canRevert
      modifies this`stepApprovals
      ensures Valid()
      ensures stepApprovals == old(stepApprovals)[auditData[i].steps[j].id := Approved]
    {
      stepApprovals := stepApprovals[auditData[i].steps[j].id := Approved];
    }

    /** `revertStep`: marks the step rejected without consulting `canRevert`
        and asks the host to revert its range. */
    method RevertStep(stepId: string, cellRange: string) returns (event: HostEvent)
      requires Valid()
      modifies this`stepApprovals
      ensures Valid()
      ensures stepApprovals == old(stepApprovals)[stepId := Rejected]
      ensures event == RevertRange(cellRange)
    {
      stepApprovals := stepApprovals[stepId := Rejected];
      event := RevertRange(cellRange);
    }

    /** A step's revert button, rendered beside the accept button: only
        revertible steps of an expanded item can be reverted through it. */
    method ClickRevertStep(i: nat, j: nat) returns (event: HostEvent)
      requires Valid()
      requires i < |auditData| && IsExpanded(expandedSections, auditData[i].id)
      requires j < |auditData[i].steps| && auditData[i].steps[j].canRevert
      modifies this`stepApprovals
      ensures Valid()
      ensures stepApprovals == old(stepApprovals)[auditData[i].steps[j].id := Rejected]
      ensures event == RevertRange(auditData[i].steps[j].cellRange)
    {
      var step := auditData[i].steps[j];
      event := RevertStep(step.id, step.cellRange);
    }

    /* -------------------------------------------------------------------- */
    /* Insights                                                              */

    /** `scanForErrors`: installs a fresh list and opens the panel; the
        cursor is left where it was. */
    method ScanForErrors(insights: seq<Insight>)
      requires Valid()
      modifies this`errorInsights, this`showInsights
      ensures Valid()
      ensures errorInsights == insights && showInsights
    {
      errorInsights := insights;
      showInsights := true;
    }

    /** `applyInsight`: every insight with this id becomes applied, whatever
        its status. */
    method ApplyInsight(id: string)
      requires Valid()
      modifies this`errorInsights
      ensures Valid()
      ensures errorInsights == SetInsightStatus(old(errorInsights), id, Applied)
    {
      errorInsights := SetInsightStatus(errorInsights, id, Applied);
    }

    /** `ignoreInsight` */
    method IgnoreInsight(id: string)
      requires Valid()
      modifies this`errorInsights
      ensures Valid()
      ensures errorInsights == SetInsightStatus(old(errorInsights), id, Ignored)
    {
      errorInsights := SetInsightStatus(errorInsights, id, Ignored);
    }

    /** The Apply button of the shown insight, enabled only while it is
        pending: with distinct ids it resolves exactly that insight. */
    method ClickApply()
      requires Valid()
      requires showInsights && CurrentInsight(errorInsights, currentInsightIndex).Some?
      requires errorInsights[CurrentInsight(errorInsights, currentInsightIndex).value].status == Unresolved
      modifies this`errorInsights
      ensures Valid()
      ensures var c := CurrentInsight(old(errorInsights), currentInsightIndex).value;
        && errorInsights == SetInsightStatus(old(errorInsights), old(errorInsights)[c].id, Applied)
        && (UniqueInsightIds(old(errorInsights)) ==>
              forall k | 0 <= k < |errorInsights| && k != c :: errorInsights[k] == old(errorInsights)[k])
    {
      var c := CurrentInsight(errorInsights, currentInsightIndex).value;
      if UniqueInsightIds(errorInsights) {
        ResolveCurrentKeepsTerminal(errorInsights, currentInsightIndex, Applied);
      }
      ApplyInsight(errorInsights[c].id);
    }

    /** The Ignore button of the shown insight, enabled only while it is pending. */
    method ClickIgnore()
      requires Valid()
      requires showInsights && CurrentInsight(errorInsights, currentInsightIndex).Some?
      requires errorInsights[CurrentInsight(errorInsights, currentInsightIndex).value].status == Unresolved
      modifies this`errorInsights
      ensures Valid()
      ensures var c := CurrentInsight(old(errorInsights), currentInsightIndex).value;
        && errorInsights == SetInsightStatus(old(errorInsights), old(errorInsights)[c].id, Ignored)
        && (UniqueInsightIds(old(errorInsights)) ==>
              forall k | 0 <= k < |errorInsights| && k != c :: errorInsights[k] == old(errorInsights)[k])
    {
      var c := CurrentInsight(errorInsights, currentInsightIndex).value;
      if UniqueInsightIds(errorInsights) {
        ResolveCurrentKeepsTerminal(errorInsights, currentInsightIndex, Ignored);
      }
      IgnoreInsight(errorInsights[c].id);
    }

    /** The header's insights toggle. */
    method ToggleInsights()
      requires Valid()
      modifies this`showInsights
      ensures Valid() && showInsights == !old(showInsights)
    {
      showInsights := !showInsights;
    }

    /** The insights panel's close button. */
    method CloseInsights()
      requires Valid()
      requires showInsights
      modifies this`showInsights
      ensures Valid() && !showInsights
    {
      showInsights := false;
    }

    /** The ⟨ button. */
    method PrevInsight()
      requires Valid()
      requires showInsights
      modifies this`currentInsightIndex
      ensures Valid()
      ensures currentInsightIndex == PrevIndex(old(currentInsightIndex))
    {
      currentInsightIndex := PrevIndex(currentInsightIndex);
    }

    /** The ⟩ button. */
    method NextInsight()
      requires Valid()
      requires showInsights
      modifies this`currentInsightIndex
      ensures Valid()
      ensures currentInsightIndex == NextIndex(old(currentInsightIndex), |errorInsights|)
    {
      currentInsightIndex := NextIndex(currentInsightIndex, |errorInsights|);
    }

    /* -------------------------------------------------------------------- */
    /* Version ledger                                                        */

    /** `createSnapshot`: appends exactly one entry, leaves the earlier ones
        untouched and makes the new one active. */
    method CreateSnapshot(title: string, id: string, now: int)
      requires Valid()
      modifies this`versions, this`activeVersionId
      ensures Valid()
      ensures versions == old(versions) + [VersionSnapshot(id, title, now)]
      ensures activeVersionId == id
    {
      versions := versions + [VersionSnapshot(id, title, now)];
      activeVersionId := id;
      assert VersionSnapshot(id, title, now) in versions;
    }

    /** `commitChanges` */
    method CommitChanges(id: string, now: int)
      requires Valid()
      modifies this`versions, this`activeVersionId
      ensures Valid()
      ensures versions == old(versions) + [VersionSnapshot(id, "Committed changes", now)]
      ensures activeVersionId == id
    {
      CreateSnapshot("Committed changes", id, now);
    }

    /** A version chip's click: moves only the active pointer. */
    method SetActiveVersion(k: nat)
      requires Valid()
      requires k < |versions|
      modifies this`activeVersionId
      ensures Valid()
      ensures activeVersionId == versions[k].id
    {
      activeVersionId := versions[k].id;
    }

    /* -------------------------------------------------------------------- */
    /* Plan proposal                                                         */

    /** A plan chip's click, while the plan bar is shown. */
    method TogglePlanStep(k: nat)
      requires Valid()
      requires showPlanBar && k < |currentPlan|
      modifies this`currentPlan
      ensures Valid()
      ensures currentPlan == ToggleSelected(old(currentPlan), old(currentPlan)[k].id)
    {
      currentPlan := ToggleSelected(currentPlan, currentPlan[k].id);
    }

    /** Accept: hides the plan bar; the plan itself is kept. */
    method AcceptPlan()
      requires Valid()
      requires showPlanBar
      modifies this`showPlanBar
      ensures Valid() && !showPlanBar
    {
      showPlanBar := false;
    }

    /** Skip: the same update as Accept. */
    method SkipPlan()
      requires Valid()
      requires showPlanBar
      modifies this`showPlanBar
      ensures Valid() && !showPlanBar
    {
      showPlanBar := false;
    }

    /* -------------------------------------------------------------------- */
    /* Selection chips                                                       */

    /** `addMockRange`, where `pick` is the random index into the samples. */
    method AddMockRange(pick: nat)
      requires Valid()
      requires pick < |Samples|
      modifies this`selectedRanges
      ensures Valid()
      ensures selectedRanges == AddRange(old(selectedRanges), Samples[pick])
    {
      var range := Samples[pick];
      if range !in selectedRanges {
        selectedRanges := selectedRanges + [range];
      }
    }

    /** `removeRange` */
    method RemoveSelectedRange(range: string)
      requires Valid()
      modifies this`selectedRanges
      ensures Valid()
      ensures selectedRanges == RemoveRange(old(selectedRanges), range)
    {
      RemoveRangeNoDuplicates(selectedRanges, range);
      selectedRanges := RemoveRange(selectedRanges, range);
    }
  }
}
