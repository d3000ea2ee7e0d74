/**
 * Values of the analyst chat panel (app/components/chat-interface.tsx) and
 * the pure per-update transforms its state setters apply: locating the
 * per-turn thinking message and finalizing it into a summary, the summary's
 * open toggle, insight status updates and the insight cursor, the plan
 * toggles, the expanded-section toggle, the selection chips and the keys of
 * the approval map a submit installs.
 */
module PanelValues {
  import opened Common

  datatype Role = User | System

  datatype MetaKind = ThinkingKind | SummaryKind

  /** `meta` of a message: the kind, the turn's `thoughtId`, and for a summary
      its reasoning lines, measured duration and disclosure state. */
  datatype Meta = Meta(kind: MetaKind, thoughtId: string, logs: Option<seq<string>>,
                       durationMs: Option<int>, open: Option<bool>)

  datatype Message = Message(id: string, role: Role, content: string, timestamp: int, meta: Option<Meta>)

  datatype Approval = Pending | Approved | Rejected

  datatype AuditStep = AuditStep(id: string, description: string, cellRange: string, canRevert: bool)

  datatype AuditItem = AuditItem(id: string, tool: string, action: string, details: string, steps: seq<AuditStep>)

  datatype Severity = Low | Medium | High

  datatype InsightStatus = Unresolved | Applied | Ignored

  datatype Insight = Insight(id: string, title: string, description: string, severity: Severity,
                             cellRange: string, suggestion: string, status: InsightStatus)

  datatype VersionSnapshot = VersionSnapshot(id: string, title: string, timestamp: int)

  datatype PlanStep = PlanStep(id: string, title: string, description: string, selected: bool)

  /* ---------------------------------------------------------------------- */
  /* Thinking and summary messages                                           */

  predicate IsThinking(m: Message) {
    m.meta.Some? && m.meta.value.kind == ThinkingKind
  }

  /** `m.meta?.kind === 'thinking' && m.meta.thoughtId === thoughtId` */
  predicate IsThinkingFor(m: Message, thoughtId: string) {
    IsThinking(m) && m.meta.value.thoughtId == thoughtId
  }

  /** Some message of the log is the thinking message of turn `thoughtId`. */
  predicate HasThinking(log: seq<Message>, thoughtId: string) {
    exists i | 0 <= i < |log| :: IsThinkingFor(log[i], thoughtId)
  }

  /** How many thinking messages of turn `t` the log holds. */
  function ThinkingCount(log: seq<Message>, t: string): nat {
    if log == [] then 0
    else ThinkingCount(log[..|log| - 1], t) + (if IsThinkingFor(log[|log| - 1], t) then 1 else 0)
  }

  /** The placeholder a turn's first timer appends. */
  function ThinkingMessage(thoughtId: string, now: int): Message {
    Message(thoughtId + "_msg", System, "Thinking...", now,
            Some(Meta(ThinkingKind, thoughtId, None, None, None)))
  }

  /** The collapsed summary that replaces the placeholder at finalize. */
  function SummaryMessage(thoughtId: string, durationMs: int, now: int): Message {
    Message(thoughtId + "_summary", System, "Thought summary", now,
            Some(Meta(SummaryKind, thoughtId, Some(ThoughtLogs), Some(durationMs), Some(false))))
  }

  /** The reasoning lines every summary carries. */
  const ThoughtLogs: seq<string> := [
    "Parsed request and identified key objectives",
    "Built stepwise plan with financial assumptions",
    "Validated dependencies and calculated outputs"]

  function FindThinkingFrom(log: seq<Message>, thoughtId: string, from: nat): (r: Option<nat>)
    requires from <= |log|
    ensures r.Some? ==> from <= r.value < |log| && IsThinkingFor(log[r.value], thoughtId)
    ensures r.Some? ==> forall j | from <= j < r.value :: !IsThinkingFor(log[j], thoughtId)
    ensures r.None? ==> forall j | from <= j < |log| :: !IsThinkingFor(log[j], thoughtId)
    decreases |log| - from
  {
    if from == |log| then None
    else if IsThinkingFor(log[from], thoughtId) then Some(from)
    else FindThinkingFrom(log, thoughtId, from + 1)
  }

  /** `findIndex` of the turn's thinking message: the first position holding
      it, found by kind and `thoughtId` and never by position; None exactly
      when the log holds none. */
  function FindThinking(log: seq<Message>, thoughtId: string): (r: Option<nat>)
    ensures r.Some? <==> HasThinking(log, thoughtId)
    ensures r.Some? ==> r.value < |log| && IsThinkingFor(log[r.value], thoughtId)
    ensures r.Some? ==> forall j | 0 <= j < r.value :: !IsThinkingFor(log[j], thoughtId)
  {
    FindThinkingFrom(log, thoughtId, 0)
  }

  /** The finalize update of the log: the turn's thinking message is replaced
      in place by `summary` (or, when there is none, `summary` is appended),
      then `final` is appended. */
  function FinalizeLog(log: seq<Message>, thoughtId: string, summary: Message, final: Message): (r: seq<Message>)
    ensures |r| == |log| + (if HasThinking(log, thoughtId) then 1 else 2)
    ensures r[|r| - 1] == final
    ensures !HasThinking(log, thoughtId) ==> r == log + [summary, final]
    ensures HasThinking(log, thoughtId) ==>
      exists k | 0 <= k < |log| ::
        && IsThinkingFor(log[k], thoughtId)
        && (forall j | 0 <= j < k :: !IsThinkingFor(log[j], thoughtId))
        && r[k] == summary
        && forall j | 0 <= j < |log| && j != k :: r[j] == log[j]
  {
    match FindThinking(log, thoughtId)
    case Some(k) => log[k := summary] + [final]
    case None => log + [summary, final]
  }

  lemma HasThinkingAppend(log: seq<Message>, m: Message, thoughtId: string)
    ensures HasThinking(log + [m], thoughtId) <==> HasThinking(log, thoughtId) || IsThinkingFor(m, thoughtId)
  {
    var r := log + [m];
    if HasThinking(r, thoughtId) && !IsThinkingFor(m, thoughtId) {
      var i :| 0 <= i < |r| && IsThinkingFor(r[i], thoughtId);
      assert i < |log| && r[i] == log[i];
    }
    if HasThinking(log, thoughtId) {
      var i :| 0 <= i < |log| && IsThinkingFor(log[i], thoughtId);
      assert r[i] == log[i];
    }
    if IsThinkingFor(m, thoughtId) {
      assert r[|log|] == m;
    }
  }

  lemma ThinkingCountAppend(log: seq<Message>, m: Message, t: string)
    ensures ThinkingCount(log + [m], t) == ThinkingCount(log, t) + if IsThinkingFor(m, t) then 1 else 0
  {
    assert (log + [m])[..|log|] == log;
  }

  /** A turn is counted exactly when the log holds its thinking message. */
  lemma {:induction false} ThinkingCountMeaning(log: seq<Message>, t: string)
    ensures ThinkingCount(log, t) > 0 <==> HasThinking(log, t)
  {
    if log != [] {
      var p := log[..|log| - 1];
      assert log == p + [log[|log| - 1]];
      ThinkingCountMeaning(p, t);
      HasThinkingAppend(p, log[|log| - 1], t);
    }
  }

  /** Replacing one message changes the count by the two messages' shares. */
  lemma {:induction false} ThinkingCountUpdate(log: seq<Message>, k: nat, x: Message, t: string)
    requires k < |log|
    ensures ThinkingCount(log[k := x], t) + (if IsThinkingFor(log[k], t) then 1 else 0)
         == ThinkingCount(log, t) + (if IsThinkingFor(x, t) then 1 else 0)
  {
    var n := |log| - 1;
    var r := log[k := x];
    if k == n {
      assert r[..n] == log[..n];
    } else {
      assert r[..n] == log[..n][k := x];
      ThinkingCountUpdate(log[..n], k, x, t);
    }
  }

  /** Two logs whose messages are thinking messages of the same turns,
      position by position, count every turn alike. */
  lemma {:induction false} SameThinkingSameCount(log: seq<Message>, r: seq<Message>, t: string)
    requires |r| == |log|
    requires forall k | 0 <= k < |log| :: IsThinkingFor(r[k], t) == IsThinkingFor(log[k], t)
    ensures ThinkingCount(r, t) == ThinkingCount(log, t)
  {
    if log != [] {
      var n := |log| - 1;
      SameThinkingSameCount(log[..n], r[..n], t);
    }
  }

  /** Finalizing turn `t` with a summary and a final message that are not
      thinking messages removes one thinking message of `t` (none when it
      had none) and leaves every other turn's count as it was. */
  lemma FinalizeLogCount(log: seq<Message>, t: string, summary: Message, final: Message, u: string)
    requires !IsThinking(summary) && !IsThinking(final)
    ensures ThinkingCount(FinalizeLog(log, t, summary, final), u)
         == if u == t && ThinkingCount(log, u) > 0 then ThinkingCount(log, u) - 1 else ThinkingCount(log, u)
  {
    ThinkingCountMeaning(log, t);
    match FindThinking(log, t)
    case None =>
      ThinkingCountAppend(log, summary, u);
      ThinkingCountAppend(log + [summary], final, u);
      assert log + [summary, final] == log + [summary] + [final];
    case Some(k) =>
      ThinkingCountUpdate(log, k, summary, u);
      ThinkingCountAppend(log[k := summary], final, u);
  }

  /** Two turns whose timers interleave, the second finishing first: each
      summary takes the place of its own turn's thinking message and the
      final messages appear in the order the turns completed. */
  lemma OverlappingTurnsLog(userA: Message, userB: Message, interimA: Message, interimB: Message,
                            summaryA: Message, summaryB: Message, finalA: Message, finalB: Message, now: int)
    requires !IsThinking(userA) && !IsThinking(userB) && !IsThinking(interimA) && !IsThinking(interimB)
    ensures var thinking := [userA, userB, ThinkingMessage("tA", now), ThinkingMessage("tB", now), interimB];
      var afterB := FinalizeLog(thinking, "tB", summaryB, finalB);
      FinalizeLog(afterB + [interimA], "tA", summaryA, finalA)
        == [userA, userB, summaryA, summaryB, interimB, finalB, interimA, finalA]
  {
    var thinking := [userA, userB, ThinkingMessage("tA", now), ThinkingMessage("tB", now), interimB];
    assert FindThinkingFrom(thinking, "tB", 3) == Some(3);
    assert FindThinkingFrom(thinking, "tB", 2) == Some(3);
    assert FindThinking(thinking, "tB") == Some(3);
    var afterB := thinking[3 := summaryB] + [finalB];
    var withA := afterB + [interimA];
    assert FindThinkingFrom(withA, "tA", 2) == Some(2);
    assert FindThinking(withA, "tA") == Some(2);
  }

  /** Two sends in a row, whose timers fire in the order their fixed delays
      give: both thinking messages, both interim messages, then the first
      turn's finalize and the second's. Each summary takes the place of its
      own turn's thinking message, and the final messages follow in send
      order. */
  lemma InOrderTurnsLog(userA: Message, userB: Message, interimA: Message, interimB: Message,
                        summaryA: Message, summaryB: Message, finalA: Message, finalB: Message, now: int)
    requires !IsThinking(userA) && !IsThinking(userB) && !IsThinking(interimA) && !IsThinking(interimB)
    requires !IsThinking(summaryA) && !IsThinking(finalA)
    ensures var thinking := [userA, userB, ThinkingMessage("tA", now), ThinkingMessage("tB", now),
                             interimA, interimB];
      var afterA := FinalizeLog(thinking, "tA", summaryA, finalA);
      FinalizeLog(afterA, "tB", summaryB, finalB)
        == [userA, userB, summaryA, summaryB, interimA, interimB, finalA, finalB]
  {
    var thinking := [userA, userB, ThinkingMessage("tA", now), ThinkingMessage("tB", now),
                     interimA, interimB];
    assert FindThinkingFrom(thinking, "tA", 2) == Some(2);
    assert FindThinking(thinking, "tA") == Some(2);
    var afterA := thinking[2 := summaryA] + [finalA];
    assert FindThinkingFrom(afterA, "tB", 3) == Some(3);
    assert FindThinkingFrom(afterA, "tB", 2) == Some(3);
    assert FindThinking(afterA, "tB") == Some(3);
  }

  /** The finalize duration: `start ? end - start : 0`, where a missing or zero
      start is falsy. */
  function ThinkingDuration(starts: map<string, int>, thoughtId: string, end: int): (d: int)
    ensures thoughtId in starts && starts[thoughtId] != 0 ==> d + starts[thoughtId] == end
    ensures thoughtId !in starts || starts[thoughtId] == 0 ==> d == 0
  {
    if thoughtId in starts && starts[thoughtId] != 0 then end - starts[thoughtId] else 0
  }

  /** The summary's Show/Hide button: every message with id `id` that carries
      a `meta` gets `open` flipped (an absent `open` reads as false). */
  function ToggleOpen(log: seq<Message>, id: string): (r: seq<Message>)
    ensures |r| == |log|
    ensures forall k | 0 <= k < |log| ::
      && r[k].id == log[k].id && r[k].role == log[k].role
      && r[k].content == log[k].content && r[k].timestamp == log[k].timestamp
      && r[k].meta.Some? == log[k].meta.Some?
      && (log[k].meta.Some? ==>
            && r[k].meta.value.kind == log[k].meta.value.kind
            && r[k].meta.value.thoughtId == log[k].meta.value.thoughtId
            && r[k].meta.value.logs == log[k].meta.value.logs
            && r[k].meta.value.durationMs == log[k].meta.value.durationMs)
      && (log[k].id != id || log[k].meta.None? ==> r[k] == log[k])
      && (log[k].id == id && log[k].meta.Some? ==>
            r[k].meta.value.open == Some(!log[k].meta.value.open.GetOr(false)))
  {
    if log == [] then []
    else
      var m := log[0];
      var m' := if m.id == id && m.meta.Some?
                then m.(meta := Some(m.meta.value.(open := Some(!m.meta.value.open.GetOr(false)))))
                else m;
      [m'] + ToggleOpen(log[1..], id)
  }

  /** Toggling a summary never creates, removes or re-keys a thinking message. */
  lemma ToggleOpenKeepsCount(log: seq<Message>, id: string, t: string)
    ensures ThinkingCount(ToggleOpen(log, id), t) == ThinkingCount(log, t)
  {
    SameThinkingSameCount(log, ToggleOpen(log, id), t);
  }

  /** Pressing Show/Hide twice restores what the button displays. */
  lemma ToggleOpenTwice(log: seq<Message>, id: string, k: nat)
    requires k < |log| && log[k].meta.Some?
    ensures ToggleOpen(ToggleOpen(log, id), id)[k].meta.value.open.GetOr(false)
         == log[k].meta.value.open.GetOr(false)
  {
  }

  /* ---------------------------------------------------------------------- */
  /* Insights                                                                */

  /** `insights.map(i => i.id === id ? {...i, status} : i)` */
  function SetInsightStatus(insights: seq<Insight>, id: string, status: InsightStatus): (r: seq<Insight>)
    ensures |r| == |insights|
    ensures forall k | 0 <= k < |insights| ::
      r[k] == if insights[k].id == id then insights[k].(status := status) else insights[k]
  {
    if insights == [] then []
    else
      var head := if insights[0].id == id then insights[0].(status := status) else insights[0];
      [head] + SetInsightStatus(insights[1..], id, status)
  }

  predicate UniqueInsightIds(insights: seq<Insight>) {
    forall i, j | 0 <= i < j < |insights| :: insights[i].id != insights[j].id
  }

  /** The insight the panel shows: `insights[index] || insights[0]`. */
  function CurrentInsight(insights: seq<Insight>, index: int): (r: Option<nat>)
    ensures r.Some? <==> |insights| > 0
    ensures r.Some? ==> r.value < |insights|
    ensures 0 <= index < |insights| ==> r == Some(index as nat)
    ensures |insights| > 0 && !(0 <= index < |insights|) ==> r == Some(0)
  {
    if 0 <= index < |insights| then Some(index as nat)
    else if |insights| > 0 then Some(0)
    else None
  }

  /** The Apply and Ignore buttons are enabled only for a pending current
      insight. With distinct ids, pressing either changes only that insight,
      and no applied or ignored insight ever changes status. */
  lemma ResolveCurrentKeepsTerminal(insights: seq<Insight>, index: int, status: InsightStatus)
    requires UniqueInsightIds(insights)
    requires CurrentInsight(insights, index).Some?
    requires insights[CurrentInsight(insights, index).value].status == Unresolved
    ensures var c := CurrentInsight(insights, index).value;
      var r := SetInsightStatus(insights, insights[c].id, status);
      && r[c] == insights[c].(status := status)
      && forall k | 0 <= k < |insights| && k != c :: r[k] == insights[k]
  {
  }

  /** Applying (or ignoring) the same id twice is the same as once. */
  lemma SetInsightStatusIdempotent(insights: seq<Insight>, id: string, status: InsightStatus)
    ensures SetInsightStatus(SetInsightStatus(insights, id, status), id, status)
         == SetInsightStatus(insights, id, status)
  {
  }

  /** The ⟨ button: `Math.max(0, i - 1)`, the least value that is neither
      negative nor below `i - 1`. It never moves the cursor below 0. */
  function PrevIndex(i: int): (r: int)
    ensures r >= 0 && r >= i - 1
    ensures r == 0 || r == i - 1
  {
    if i - 1 < 0 then 0 else i - 1
  }

  /** The ⟩ button: `Math.min(length - 1, i + 1)`, the greatest value above
      neither `length - 1` nor `i + 1`. It never moves the cursor past the
      last insight, and on an empty list it yields -1. */
  function NextIndex(i: int, length: nat): (r: int)
    ensures r <= length - 1 && r <= i + 1
    ensures r == length - 1 || r == i + 1
    ensures length == 0 && i >= -1 ==> r == -1
  {
    if length - 1 < i + 1 then length - 1 else i + 1
  }

  datatype CursorMove = Prev | Next

  /** The cursor after a run of button presses on a list of `length` insights. */
  function Navigate(i: int, length: nat, moves: seq<CursorMove>): int
    decreases |moves|
  {
    if moves == [] then i
    else
      var j := if moves[0] == Prev then PrevIndex(i) else NextIndex(i, length);
      Navigate(j, length, moves[1..])
  }

  /** Starting anywhere at or above -1, the cursor never drops below -1; it is
      -1 only when the list is empty and ⟩ was pressed; on a non-empty list a
      cursor inside the list stays inside it. */
  lemma {:induction false} NavigateBounds(i: int, length: nat, moves: seq<CursorMove>)
    requires -1 <= i
    ensures -1 <= Navigate(i, length, moves)
    ensures length > 0 && 0 <= i < length ==> 0 <= Navigate(i, length, moves) < length
    ensures moves != [] && Navigate(i, length, moves) == -1 ==> length == 0
    decreases |moves|
  {
    if moves != [] {
      var j := if moves[0] == Prev then PrevIndex(i) else NextIndex(i, length);
      NavigateBounds(j, length, moves[1..]);
      if moves[1..] == [] {
        assert Navigate(i, length, moves) == j;
      }
    }
  }

  /* ---------------------------------------------------------------------- */
  /* Version ledger                                                          */

  /** The ledger's first entry, present from the start (timestamp `new Date(0)`). */
  const OriginalVersion: VersionSnapshot := VersionSnapshot("v1", "Original", 0)

  function VersionIds(versions: seq<VersionSnapshot>): set<string> {
    set v | v in versions :: v.id
  }

  /* ---------------------------------------------------------------------- */
  /* Plan proposal                                                           */

  /** The four-step proposal an analyst-mode send installs, all selected. */
  function AnalystPlan(): (plan: seq<PlanStep>)
    ensures |plan| == 4
    ensures forall k | 0 <= k < 4 :: plan[k].selected
    ensures plan[0].id == "p1" && plan[1].id == "p2" && plan[2].id == "p3" && plan[3].id == "p4"
    ensures forall i, j | 0 <= i < j < 4 :: plan[i].id != plan[j].id
  {
    [ PlanStep("p1", "Create template", "Set up P&L structure with standard sections", true),
      PlanStep("p2", "Apply formulas", "Link COGS, labor, rent to revenue", true),
      PlanStep("p3", "Validate ratios", "Check margins and add range alerts", true),
      PlanStep("p4", "Format professionally", "Currency, percentages, conditional formatting", true) ]
  }

  /** A plan chip's click: `prev.map(s => s.id === id ? {...s, selected: !s.selected} : s)` */
  function ToggleSelected(plan: seq<PlanStep>, id: string): (r: seq<PlanStep>)
    ensures |r| == |plan|
    ensures forall k | 0 <= k < |plan| ::
      && r[k].id == plan[k].id && r[k].title == plan[k].title
      && r[k].description == plan[k].description
      && r[k].selected == (if plan[k].id == id then !plan[k].selected else plan[k].selected)
  {
    if plan == [] then []
    else
      var head := if plan[0].id == id then plan[0].(selected := !plan[0].selected) else plan[0];
      [head] + ToggleSelected(plan[1..], id)
  }

  /** Clicking the same chip twice restores the plan. */
  lemma ToggleSelectedTwice(plan: seq<PlanStep>, id: string)
    ensures ToggleSelected(ToggleSelected(plan, id), id) == plan
  {
    var r := ToggleSelected(ToggleSelected(plan, id), id);
    assert forall k | 0 <= k < |plan| :: r[k] == plan[k];
  }

  /* ---------------------------------------------------------------------- */
  /* Expanded sections and selection chips                                   */

  /** `expandedSections[id]`, where a missing key is falsy. */
  predicate IsExpanded(sections: map<string, bool>, id: string) {
    id in sections && sections[id]
  }

  /** `{...prev, [id]: !prev[id]}` */
  function ToggleExpanded(sections: map<string, bool>, id: string): (r: map<string, bool>)
    ensures IsExpanded(r, id) == !IsExpanded(sections, id)
    ensures r.Keys == sections.Keys + {id}
    ensures forall k | k in sections && k != id :: r[k] == sections[k]
  {
    sections[id := !IsExpanded(sections, id)]
  }

  /** The ranges the add-chip menu picks from at random. */
  const Samples: seq<string> := ["A1:B10", "C7:C14", "Revenue!B3:B8", "Summary!A1:C2"]

  predicate NoDuplicates(s: seq<string>) {
    forall i, j | 0 <= i < j < |s| :: s[i] != s[j]
  }

  /** `addMockRange` after the random pick: add the range only if absent. */
  function AddRange(ranges: seq<string>, pick: string): (r: seq<string>)
    ensures pick in r
    ensures forall x :: x in r <==> x in ranges || x == pick
    ensures NoDuplicates(ranges) ==> NoDuplicates(r)
  {
    if pick in ranges then ranges else ranges + [pick]
  }

  /** `removeRange`: `prev.filter(r => r !== range)` */
  function RemoveRange(ranges: seq<string>, range: string): (r: seq<string>)
    ensures |r| <= |ranges|
    ensures forall x :: x in r <==> x in ranges && x != range
  {
    if ranges == [] then []
    else if ranges[0] == range then RemoveRange(ranges[1..], range)
    else [ranges[0]] + RemoveRange(ranges[1..], range)
  }

  /** Filtering keeps the chips free of duplicates, and removes exactly one
      entry when the range was present once. */
  lemma {:induction false} RemoveRangeNoDuplicates(ranges: seq<string>, range: string)
    requires NoDuplicates(ranges)
    ensures NoDuplicates(RemoveRange(ranges, range))
    ensures |RemoveRange(ranges, range)| == if range in ranges then |ranges| - 1 else |ranges|
  {
    if ranges != [] {
      var tail := ranges[1..];
      assert NoDuplicates(tail);
      RemoveRangeNoDuplicates(tail, range);
      var rt := RemoveRange(tail, range);
      if ranges[0] != range {
        assert ranges[0] !in tail;
        assert ranges[0] !in rt;
        var r := [ranges[0]] + rt;
        forall i, j | 0 <= i < j < |r| ensures r[i] != r[j] {
          if i == 0 { assert r[j] in rt; }
          else { assert r[i] == rt[i - 1] && r[j] == rt[j - 1]; }
        }
        assert range in ranges <==> range in tail;
      } else {
        assert range !in tail;
      }
    }
  }

  /* ---------------------------------------------------------------------- */
  /* Approval keys                                                           */

  function StepKeys(steps: seq<AuditStep>): set<string> {
    set s | s in steps :: s.id
  }

  /** The keys an analyst-mode send writes into the tool approval map: every
      audit item's id and every one of its steps' ids. */
  function ApprovalKeys(items: seq<AuditItem>): set<string> {
    (set it | it in items :: it.id) + (set it, s | it in items && s in it.steps :: s.id)
  }

  /** Visiting one more item, as the source's outer `forEach` does, adds its
      id and its steps' ids. */
  lemma ApprovalKeysSnoc(items: seq<AuditItem>, item: AuditItem)
    ensures ApprovalKeys(items + [item]) == ApprovalKeys(items) + {item.id} + StepKeys(item.steps)
  {
  }

}
