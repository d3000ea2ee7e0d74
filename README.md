# Chat panel session model

This project models the session state machine of the spreadsheet assistant's
chat panel. There are two variants.

- **The analyst panel** is `ChatInterface` in `app/components/chat-interface.tsx`.
  A send appends the user's message and opens a turn. Three timers then follow
  for that turn:
  - the first appends a "thinking" placeholder keyed by the turn's `thoughtId`
    and records the start time;
  - the second appends an interim message;
  - the third replaces the placeholder in place with a collapsed "thought
    summary" and appends the final message.

  In analyst mode a send also does three more things:
  - it proposes a four-step plan;
  - it installs the audit items with every id pending in the tool approval map;
  - it scans for insights.

  The panel also holds:
  - the tool and step approval maps;
  - the expanded audit sections;
  - the insight list with its clamped cursor;
  - the append-only version ledger and its active pointer;
  - the plan bar;
  - the selection chips, which never hold a range twice.
- **The older panel** is in `components/chat-interface.tsx`. A send installs a
  two-node progress thread. Three timed ticks then each complete one node,
  found by a fixed id, and the first two ticks also append the next node.

How the source maps onto the model:

- Each component's `useState` hooks are the fields of a Dafny class:
  - `ChatPanel.ChatInterface` in `chat_panel.dfy`;
  - `ThreadChat.ThreadChatInterface` in `thread_chat.dfy`.
- Every handler, inline button handler and timer callback is one method. Its
  `modifies` clause names exactly the session-state setters the handler calls.
- The pure per-update transforms are functions with lemmas about them. They live
  in `panel_values.dfy` (module `PanelValues`) and in `thread_chat.dfy`:
  - the finalize rewrite of the log;
  - the summary toggle;
  - insight status updates;
  - the cursor clamps;
  - plan and section toggles;
  - chip add and remove;
  - the keys of the approval map;
  - the thread-node updates.
- `common.dfy` holds the JavaScript `trim` whitespace test and the two assistant
  texts that both panels append.

Inputs and the class invariant:

- The clock (`Date.now()`, `new Date()`), the ids built from it and the random
  chip pick are method parameters.
- The audit-item and insight fixtures are parameters too.
- The three timers of one analyst turn fire in order, because they are scheduled
  400, 2000 and 4000 ms after the same send. The ghost field `turns` records how
  far each turn has come, and each timer method requires its turn's earlier
  timers to have fired.
- Timers of different turns may interleave in any order. This over-approximates
  the source. There, the fixed delays make every timer of an earlier send fire
  before the same timer of a later send.
- The class invariant `Valid()` states five things:
  - the ledger keeps `v1 "Original"` first;
  - the active version names an entry;
  - the chips have no duplicates;
  - the cursor is at least -1;
  - `TurnsAgree`: a start time is recorded exactly for the turns whose first
    timer fired, and the log holds exactly one thinking message for each turn in
    flight and none for any other turn.

UI guards are requires clauses on wrapper methods, and the raw handlers stay
unguarded as they are in the source:
- `ClickSend` covers the send button and Enter key, which are disabled while
  processing.
- `ClickRevertStep` and `AcceptStep` cover the step buttons, which are rendered
  only for revertible steps of an expanded item.
- `ClickApply` and `ClickIgnore` cover the insight buttons, which are disabled
  unless the insight is pending.
- `ToggleSummary` covers the Show/Hide button, which is rendered only on
  summaries.

Behaviour of the code worth noting:
- `revertStep` marks the step rejected without checking `canRevert`, and it
  never fails. The only guard is that the button is rendered for revertible
  steps.
- Choosing a version sets the active id with no lookup, and it never fails.
- A step's accept button is rendered only for revertible steps, like its revert
  button.
- `scanForErrors` replaces the list but leaves the insight cursor where it was.
- Accept and Skip on the plan bar both only hide the bar and keep the plan.
- An analyst send writes the step ids into the tool approval map. The step
  approval map stays untouched.

## Model

| member | source | states |
|---|---|---|
| Common.TrimEmptyIffBlank | app/components/chat-interface.tsx:309 | `!s.trim()` (via `Trim`, built from `TrimStart` and `TrimEnd`) holds exactly when every character of `s` is JavaScript whitespace, in both directions |
| ChatPanel.InitialApprovals | app/components/chat-interface.tsx:578-585 | the nested `forEach` loops yield a map whose keys are exactly every audit item id and every step id, each mapped to pending |
| PanelValues.ApprovalKeysSnoc | app/components/chat-interface.tsx:579-584 | processing one more item adds exactly its id and its steps' ids to the key set |
| ChatPanel.ChatInterface.constructor | app/components/chat-interface.tsx:99-154 | the hooks' initial values: empty log, ask mode, no audit data, an empty cursor at 0, ledger `[v1 "Original"]` with `v1` active, insights panel shown, no plan bar, no chips, no thinking start, no last duration and no current thought id; the invariant holds |
| ChatPanel.ChatInterface.SetInput | app/components/chat-interface.tsx:790 | the input becomes the typed text and nothing else changes |
| ChatPanel.ChatInterface.SetMode | app/components/chat-interface.tsx:737-744 | the mode becomes the chosen one and nothing else changes |
| ChatPanel.ChatInterface.Submit | app/components/chat-interface.tsx:308-588 | blank input changes nothing; otherwise exactly one user message carrying the input is appended, the input is cleared, processing is set and the turn opens; in analyst mode the proposal is installed (`Proposed`), in ask mode plan, audit data, approvals and insights are untouched |
| ChatPanel.ChatInterface.ClickSend | app/components/chat-interface.tsx:812-817 | the guarded send (disabled while processing) has `Submit`'s whole effect: blank input changes nothing; otherwise the user message is appended, the input cleared, processing set, the current thought id set and the turn opened; in analyst mode the proposal is installed, in ask mode plan, audit data, approvals and insights are untouched |
| ChatPanel.ChatInterface.OpenTurn | app/components/chat-interface.tsx:311-325 | one user message appended, input cleared, processing set, current thought id set, turn recorded as submitted, invariant kept |
| ChatPanel.ChatInterface.ProposeAnalysis | app/components/chat-interface.tsx:327-586 | the four-step plan is installed with the bar shown, the audit items installed, every item and step id pending in the tool approval map, the insights replaced and shown |
| PanelValues.AnalystPlan | app/components/chat-interface.tsx:328-333 | four steps p1 to p4, all selected, with distinct ids |
| ChatPanel.OpenTurnAgrees | app/components/chat-interface.tsx:319-325 | opening a turn with a non-thinking message keeps the log and start times in agreement with the turns |
| ChatPanel.ChatInterface.BeginThinking | app/components/chat-interface.tsx:590-604 | the start time is recorded under this turn's key (which had none), and exactly one thinking message tagged with this turn (`ThinkingMessage`) is appended |
| ChatPanel.BeginTurnAgrees | app/components/chat-interface.tsx:590-604 | appending the turn's thinking message and start time moves the turn in flight with exactly one thinking message |
| ChatPanel.ChatInterface.Interim | app/components/chat-interface.tsx:606-617 | the last duration becomes `now - start` when the turn's start is truthy and is otherwise kept; exactly one interim system message is appended |
| ChatPanel.InterimAgrees | app/components/chat-interface.tsx:606-617 | the interim message keeps the agreement between log and turns |
| ChatPanel.ChatInterface.Finalize | app/components/chat-interface.tsx:619-663 | the duration is `now - start` (0 for a falsy start); the log becomes the finalize rewrite with the collapsed `SummaryMessage`, grows by exactly one, keeps every message other than this turn's thinking message in place and holds no thinking message of this turn; processing is cleared |
| ChatPanel.FinalizeAgrees | app/components/chat-interface.tsx:619-660 | a turn whose timers ran in order still has its thinking message at finalize, and after it has none, with every other turn's agreement kept |
| PanelValues.ThinkingDuration | app/components/chat-interface.tsx:621-623 | `start ? end - start : 0`: the duration added to the start gives the end when the start is truthy, and is 0 when no start was recorded or it is 0 |
| PanelValues.FindThinking | app/components/chat-interface.tsx:629 | `findIndex` by kind and thought id: found exactly when the log holds such a message, at the first position holding one |
| PanelValues.FinalizeLog | app/components/chat-interface.tsx:626-660 | if the thinking message exists, it (the first one) is replaced in place by the summary, every other message is unchanged and the log grows by 1; otherwise the result is the log plus summary plus final, growing by 2; the last message is the final one |
| PanelValues.HasThinkingAppend | app/components/chat-interface.tsx:596-603 | after appending a message, a turn has a thinking message exactly when it had one or the new message is it |
| PanelValues.ThinkingCountAppend | app/components/chat-interface.tsx:596-603 | appending a message adds one to a turn's count exactly when it is that turn's thinking message |
| PanelValues.ThinkingCountMeaning | app/components/chat-interface.tsx:629 | a turn's count is positive exactly when the log holds its thinking message |
| PanelValues.ThinkingCountUpdate | app/components/chat-interface.tsx:648 | `next[idx] = summary` changes each turn's count by the old and new messages' shares |
| PanelValues.FinalizeLogCount | app/components/chat-interface.tsx:626-660 | finalizing removes one thinking message of the finalized turn (none if it had none) and leaves every other turn's count unchanged |
| PanelValues.InOrderTurnsLog | app/components/chat-interface.tsx:590-660 | two sends in a row, with the timers firing in the order the fixed delays give (both placeholders, both interims, then both finalizes): the log ends as the two user messages, the two summaries at their placeholders' positions, the two interims and the two final messages in send order |
| PanelValues.OverlappingTurnsLog | app/components/chat-interface.tsx:590-660 | two turns whose timers interleave, the second finishing first. This order is allowed by the any-order timer abstraction, though the fixed delays never produce it: each summary takes its own turn's placeholder position and the final messages appear in completion order |
| ChatPanel.ChatInterface.ToggleSummary | app/components/chat-interface.tsx:1076-1079 | the Show/Hide button on a summary applies the open toggle to the log, keeping the invariant |
| PanelValues.ToggleOpen | app/components/chat-interface.tsx:1079 | every message with this id and a `meta` gets `open` flipped (absent reads as false); everything else about every message is unchanged |
| PanelValues.ToggleOpenKeepsCount | app/components/chat-interface.tsx:1079 | the toggle never creates, removes or re-keys a thinking message |
| ChatPanel.ToggleAgrees | app/components/chat-interface.tsx:1079 | the toggle keeps the agreement between log and turns |
| PanelValues.ToggleOpenTwice | app/components/chat-interface.tsx:1079 | pressing Show/Hide twice restores what it shows |
| ChatPanel.ChatInterface.AcceptItem | app/components/chat-interface.tsx:1162 | exactly the item's key of the tool approval map becomes approved |
| ChatPanel.ChatInterface.RejectItem | app/components/chat-interface.tsx:1172 | exactly the item's key of the tool approval map becomes rejected |
| ChatPanel.ChatInterface.ToggleSection | app/components/chat-interface.tsx:1204 | the item's expanded flag is flipped |
| PanelValues.ToggleExpanded | app/components/chat-interface.tsx:1204 | the toggled id's expanded state is negated (missing reads as collapsed); all other keys keep their values |
| ChatPanel.ChatInterface.AcceptStep | app/components/chat-interface.tsx:1295-1300 | for a revertible step of an expanded item, exactly that step's key of the step approval map becomes approved |
| ChatPanel.ChatInterface.RevertStep | app/components/chat-interface.tsx:250-254 | without any `canRevert` check, exactly the step's key of the step approval map becomes rejected and a revert of its range is requested from the host |
| ChatPanel.ChatInterface.ClickRevertStep | app/components/chat-interface.tsx:1295-1313 | the revert button, rendered only for revertible steps of an expanded item, rejects that step and requests reverting its range |
| ChatPanel.ChatInterface.ScanForErrors | app/components/chat-interface.tsx:256-288 | the insights are replaced and the panel shown; the cursor is untouched |
| ChatPanel.ChatInterface.ApplyInsight | app/components/chat-interface.tsx:290-292 | every insight with this id becomes applied, whatever its status |
| ChatPanel.ChatInterface.IgnoreInsight | app/components/chat-interface.tsx:294-296 | every insight with this id becomes ignored, whatever its status |
| PanelValues.SetInsightStatus | app/components/chat-interface.tsx:290-296 | length kept; an insight with the id gets the new status and keeps every other field; the rest are unchanged |
| PanelValues.SetInsightStatusIdempotent | app/components/chat-interface.tsx:290-296 | applying (or ignoring) the same id twice equals doing it once |
| ChatPanel.ChatInterface.ClickApply | app/components/chat-interface.tsx:1402 | on a pending current insight, apply is called on its id; with distinct ids only that insight changes |
| ChatPanel.ChatInterface.ClickIgnore | app/components/chat-interface.tsx:1403 | as `ClickApply`, with ignored |
| PanelValues.ResolveCurrentKeepsTerminal | app/components/chat-interface.tsx:1402-1403 | with distinct ids, resolving the pending current insight changes only it, so no applied or ignored insight changes status |
| PanelValues.CurrentInsight | app/components/chat-interface.tsx:124 | `insights[i] \|\| insights[0]`: the cursor's insight when it is in range, else the first, and none exactly when the list is empty |
| ChatPanel.ChatInterface.ToggleInsights | app/components/chat-interface.tsx:936 | the insights panel's visibility is flipped |
| ChatPanel.ChatInterface.CloseInsights | app/components/chat-interface.tsx:1372 | the insights panel is hidden |
| ChatPanel.ChatInterface.PrevInsight | app/components/chat-interface.tsx:1377 | the cursor becomes `PrevIndex` of the old cursor |
| ChatPanel.ChatInterface.NextInsight | app/components/chat-interface.tsx:1378 | the cursor becomes `NextIndex` of the old cursor and the list length |
| PanelValues.PrevIndex | app/components/chat-interface.tsx:1377 | `Math.max(0, i - 1)` as the least value that is neither negative nor below `i - 1`: the cursor never goes below 0 |
| PanelValues.NextIndex | app/components/chat-interface.tsx:1378 | `Math.min(length - 1, i + 1)` as the greatest value above neither `length - 1` nor `i + 1`: the cursor never passes the last insight, and an empty list yields -1 |
| PanelValues.NavigateBounds | app/components/chat-interface.tsx:1377-1378 | over any run of presses the cursor stays at least -1; a cursor inside a non-empty list stays inside; -1 after a press only on an empty list |
| ChatPanel.ChatInterface.CreateSnapshot | app/components/chat-interface.tsx:298-302 | exactly one entry is appended, earlier entries untouched, and the new entry becomes active |
| ChatPanel.ChatInterface.CommitChanges | app/components/chat-interface.tsx:304-306 | a snapshot titled "Committed changes" |
| ChatPanel.ChatInterface.SetActiveVersion | app/components/chat-interface.tsx:981 | only the active pointer moves, to the chosen entry's id |
| ChatPanel.ChatInterface.TogglePlanStep | app/components/chat-interface.tsx:965 | the plan becomes the toggle of the clicked step's id |
| PanelValues.ToggleSelected | app/components/chat-interface.tsx:965 | length and order kept; steps with the id have `selected` flipped and keep their other fields; the others are unchanged |
| PanelValues.ToggleSelectedTwice | app/components/chat-interface.tsx:965 | toggling a step twice restores the plan |
| ChatPanel.ChatInterface.AcceptPlan | app/components/chat-interface.tsx:971 | the plan bar is hidden; the plan is kept |
| ChatPanel.ChatInterface.SkipPlan | app/components/chat-interface.tsx:972 | the plan bar is hidden; the plan is kept |
| ChatPanel.ChatInterface.AddMockRange | app/components/chat-interface.tsx:155-159 | the picked sample is added only when absent |
| PanelValues.AddRange | app/components/chat-interface.tsx:155-159 | the result holds exactly the old ranges and the pick, and stays duplicate-free |
| ChatPanel.ChatInterface.RemoveSelectedRange | app/components/chat-interface.tsx:160 | the chips become the filter removing that range |
| PanelValues.RemoveRange | app/components/chat-interface.tsx:160 | a range is in the result exactly when it was in the chips and is not the removed one |
| PanelValues.RemoveRangeNoDuplicates | app/components/chat-interface.tsx:160 | removing keeps the chips duplicate-free and shortens them by one exactly when the range was present |
| ThreadChat.ThreadChatInterface.constructor | components/chat-interface.tsx:29-39 | the log starts with the one seeded user message; no thread; empty input; not processing |
| ThreadChat.ThreadChatInterface.SetInput | components/chat-interface.tsx:332 | the input becomes the typed text |
| ThreadChat.ThreadChatInterface.Submit | components/chat-interface.tsx:51-85 | blank input changes nothing; otherwise exactly one user message carrying the input is appended, the input cleared, processing set and a fresh two-node thread replaces any previous one |
| ThreadChat.ThreadChatInterface.ClickSend | components/chat-interface.tsx:335-342 | the guarded send (disabled while processing) has `Submit`'s whole effect: blank input changes nothing; otherwise one user message carrying the input is appended, the input cleared, processing set and the fresh thread installed |
| ThreadChat.InitialThread | components/chat-interface.tsx:67-83 | the fresh thread keeps the given thread id and holds two nodes: node "1" completed and node "2" active, the only active node |
| ThreadChat.CompleteNode | components/chat-interface.tsx:92-94 | length kept; nodes with the id become completed; the others are unchanged |
| ThreadChat.AdvanceThread | components/chat-interface.tsx:89-138 | a null thread stays null; otherwise the thread id is kept, the node with the done id is completed, every other node keeps id, caption, timestamp and status, and exactly the new nodes are appended |
| ThreadChat.ThreadChatInterface.OnFirstTick | components/chat-interface.tsx:88-103 | via `FirstTick`: node "2" completed and node "3" "Revising Model" appended active |
| ThreadChat.ThreadChatInterface.OnSecondTick | components/chat-interface.tsx:105-130 | via `SecondTick`: node "3" completed, node "4" "Finalizing Model" appended active, exactly one interim system message appended |
| ThreadChat.ThreadChatInterface.OnThirdTick | components/chat-interface.tsx:132-150 | via `ThirdTick`: node "4" completed with no node added, exactly one final system message appended, processing cleared |
| ThreadChat.ActiveCountAppend | components/chat-interface.tsx:89-101 | the active count of a concatenation is the sum of the counts |
| ThreadChat.CompleteOnlyActive | components/chat-interface.tsx:89-94 | completing the id every active node carries leaves no node active |
| ThreadChat.TickHandsOver | components/chat-interface.tsx:88-128 | a tick that completes the only active node and appends an active node leaves exactly one node active: the new one |
| ThreadChat.InOrderTurn | components/chat-interface.tsx:67-138 | across a send and its three in-order ticks the node count goes 2, 3, 4, 4; one node is active until the last tick and all four are completed after it |
| ThreadChat.TicksIgnoreThreadId | components/chat-interface.tsx:89-138 | the ticks never consult the thread id: two threads with the same nodes tick to the same nodes |
| ThreadChat.StaleTickTwoActive | components/chat-interface.tsx:105-118 | an earlier turn's second tick landing on a fresh thread finds no node "3" and leaves two nodes active |
| ThreadChat.OneTurn | components/chat-interface.tsx:51-151 | one turn through the class: the log grows to four messages (the seeded one, the input, the interim and the final text) and the thread ends with four nodes, none active |

## Left out

- Rendering is not modelled. This covers the JSX, CSS, animations, the logo
  heuristic, the tab-visibility expression, the "Thought for Xs" label with
  `toFixed`, the active tab, and the older panel's tabs and mode menu, which no
  handler reads.
- Drag and resize mouse tracking are not modelled, nor is the keyboard listener
  with its command palette. Both are DOM event plumbing.
- File upload and `formatFileSize` are not modelled. They work on browser File
  objects and floating point.
- `navigateToCell` and the `console.log` in `revertStep` are left out: both are
  calls into a host spreadsheet API. Instead `RevertStep` returns the requested
  revert as a `HostEvent`.
- The following UI toggles are left out, because the session state machine
  never reads them:
  - the provider and model menus;
  - the visibility of the analyst panel's mode dropdown, which the Ask and
    Analyst entries also close;
  - dry run, privacy mode and advanced mode;
  - the preview modal.
- `setTimeout` scheduling is left out. The timers are explicit methods, and the
  ghost `turns` map fixes only the order of one turn's timers. Real delays are
  not modelled.
- `Date.now()`, `new Date()` and `Math.random()` become parameters.
  - The ids built from the clock are assumed fresh: `Submit` requires a thought
    id not used before. The source's `t_${Date.now()}` ids do not guarantee
    this.
  - Timestamps are integers.
- The audit items, audit steps and insights keep their display fields (tool,
  action, details, description, title, severity, cell range, suggestion).
  - The only one any transition reads is the audit step's cell range.
    `ClickRevertStep` reads it to build the revert request.
  - No transition reads the others.

  Dropped are:
  - the audit item's formulas, affected cells, data validation, status and
    timestamp;
  - the audit step's status.
- The contents of the audit and insight fixtures are inputs to `Submit` and
  `ScanForErrors`.
- The summary's `logs` and the two assistant texts are the source's constants.
- `PanelValues.ToggleOpen`: a message that shares the summary's id but has no
  `meta` is left unchanged. The source would give it a `meta` of `{open: true}`.
  Summary ids are `<thoughtId>_summary`, and no other message uses that form.
- `ChatPanel.ChatInterface.Finalize` clears processing even while another turn
  is still in flight. This is modelled as written. It cannot happen through
  `ClickSend`, because sends are disabled while processing.
- `lastThinkingDurationMs` and `thinkingStartedAt` are single values shared by
  all turns. Each timer overwrites them, as in the source.
- Two `label` fields are renamed, because `label` is a Dafny keyword:
  - the thread node's `label` is named `caption`;
  - the version snapshot's `label` is named `title`.
- The insight status `'pending'` is named `Unresolved`. `Pending` is already the
  name of the approval state, and both types share one module.
- The analyst message's `'thread-node'` type and its `threadNode` field are not
  modelled. No handler of the panel produces either.
