/**
 * The older chat panel (components/chat-interface.tsx): a conversation log
 * and a "thread" of progress nodes. Sending a message installs a fresh
 * two-node thread; three timer callbacks then each mark one node completed
 * and (for the first two) append the next node as active.
 *
 * The timers become explicit methods, and `Date.now()` becomes parameters
 * (the current time and the fresh ids it is used to build).
 */
module ThreadChat {
  import opened Common

  datatype Role = User | System

  datatype Message = Message(id: string, role: Role, content: string, timestamp: int)

  datatype NodeStatus = Completed | Active | Pending

  datatype ThreadNode = ThreadNode(id: string, caption: string, status: NodeStatus, timestamp: int)

  datatype ChatThread = ChatThread(id: string, nodes: seq<ThreadNode>)

  /** The thread a send installs: the assistant node done, "Thinking" active. */
  function InitialThread(threadId: string, now: int): (r: ChatThread)
    ensures r.id == threadId && |r.nodes| == 2
    ensures r.nodes[0].id == "1" && r.nodes[0].status == Completed
    ensures r.nodes[1].id == "2" && r.nodes[1].status == Active
    ensures ActiveCount(r.nodes) == 1 && ActiveOnly(r.nodes, "2")
  {
    var nodes := [ThreadNode("1", "cf0 AI", Completed, now),
                  ThreadNode("2", "Thinking", Active, now)];
    assert ActiveCount(nodes[1..]) == 1 by { assert nodes[1..][1..] == []; }
    ChatThread(threadId, nodes)
  }

  /** Nodes appended by the first and second ticks. */
  function RevisingNode(now: int): ThreadNode { ThreadNode("3", "Revising Model", Active, now) }
  function FinalizingNode(now: int): ThreadNode { ThreadNode("4", "Finalizing Model", Active, now) }

  /** `nodes.map(n => n.id === id ? {...n, status: 'completed'} : n)` */
  function CompleteNode(nodes: seq<ThreadNode>, id: string): (r: seq<ThreadNode>)
    ensures |r| == |nodes|
    ensures forall k | 0 <= k < |nodes| ::
      r[k] == if nodes[k].id == id then nodes[k].(status := Completed) else nodes[k]
  {
    if nodes == [] then []
    else
      var head := if nodes[0].id == id then nodes[0].(status := Completed) else nodes[0];
      [head] + CompleteNode(nodes[1..], id)
  }

  /** One tick's update of the current thread: a missing thread stays missing;
      otherwise the node with id `doneId` is completed and `appended` added. */
  function AdvanceThread(t: Option<ChatThread>, doneId: string, appended: seq<ThreadNode>): (r: Option<ChatThread>)
    ensures r.None? <==> t.None?
    ensures t.Some? ==> r.value.id == t.value.id
    ensures t.Some? ==> |r.value.nodes| == |t.value.nodes| + |appended|
    ensures t.Some? ==> r.value.nodes[|t.value.nodes|..] == appended
    ensures t.Some? ==> forall k | 0 <= k < |t.value.nodes| ::
      && r.value.nodes[k].id == t.value.nodes[k].id
      && r.value.nodes[k].caption == t.value.nodes[k].caption
      && r.value.nodes[k].timestamp == t.value.nodes[k].timestamp
      && r.value.nodes[k].status == (if t.value.nodes[k].id == doneId then Completed else t.value.nodes[k].status)
  {
    match t
    case None => None
    case Some(th) => Some(th.(nodes := CompleteNode(th.nodes, doneId) + appended))
  }

  function FirstTick(t: Option<ChatThread>, now: int): Option<ChatThread> {
    AdvanceThread(t, "2", [RevisingNode(now)])
  }

  function SecondTick(t: Option<ChatThread>, now: int): Option<ChatThread> {
    AdvanceThread(t, "3", [FinalizingNode(now)])
  }

  function ThirdTick(t: Option<ChatThread>): Option<ChatThread> {
    AdvanceThread(t, "4", [])
  }

  /** The number of nodes shown as active. */
  function ActiveCount(nodes: seq<ThreadNode>): nat {
    if nodes == [] then 0
    else (if nodes[0].status == Active then 1 else 0) + ActiveCount(nodes[1..])
  }

  /** Every active node carries the id `id`. */
  predicate ActiveOnly(nodes: seq<ThreadNode>, id: string) {
    forall k | 0 <= k < |nodes| :: nodes[k].status == Active ==> nodes[k].id == id
  }

  lemma {:induction false} ActiveCountAppend(a: seq<ThreadNode>, b: seq<ThreadNode>)
    ensures ActiveCount(a + b) == ActiveCount(a) + ActiveCount(b)
  {
    if a == [] {
      assert a + b == b;
    } else {
      assert (a + b)[0] == a[0];
      assert (a + b)[1..] == a[1..] + b;
      ActiveCountAppend(a[1..], b);
    }
  }

  /** Completing the one id that every active node carries leaves none active. */
  lemma {:induction false} CompleteOnlyActive(nodes: seq<ThreadNode>, id: string)
    requires ActiveOnly(nodes, id)
    ensures ActiveCount(CompleteNode(nodes, id)) == 0
  {
    if nodes != [] {
      var r := CompleteNode(nodes, id);
      assert r[1..] == CompleteNode(nodes[1..], id);
      CompleteOnlyActive(nodes[1..], id);
    }
  }

  /** A tick that completes the active node and appends one active node hands
      the single active slot over to the new node. */
  lemma TickHandsOver(t: ChatThread, doneId: string, next: ThreadNode)
    requires ActiveOnly(t.nodes, doneId)
    requires next.status == Active
    ensures var r := AdvanceThread(Some(t), doneId, [next]).value.nodes;
      ActiveCount(r) == 1 && ActiveOnly(r, next.id)
  {
    var done := CompleteNode(t.nodes, doneId);
    CompleteOnlyActive(t.nodes, doneId);
    ActiveCountAppend(done, [next]);
  }

  /** Submit followed by the three ticks of the same turn, in order: the node
      count goes 2, 3, 4, 4; one node is active until the last tick, and none
      after it. */
  lemma InOrderTurn(threadId: string, t0: int, t1: int, t2: int)
    ensures var s0 := Some(InitialThread(threadId, t0));
      var s1 := FirstTick(s0, t1);
      var s2 := SecondTick(s1, t2);
      var s3 := ThirdTick(s2);
      && |s0.value.nodes| == 2 && |s1.value.nodes| == 3
      && |s2.value.nodes| == 4 && |s3.value.nodes| == 4
      && ActiveCount(s0.value.nodes) == 1 && ActiveCount(s1.value.nodes) == 1
      && ActiveCount(s2.value.nodes) == 1 && ActiveCount(s3.value.nodes) == 0
      && forall k | 0 <= k < 4 :: s3.value.nodes[k].status == Completed
  {
    var s0 := InitialThread(threadId, t0);
    ActiveCountAppend([s0.nodes[0]], [s0.nodes[1]]);
    assert s0.nodes == [s0.nodes[0]] + [s0.nodes[1]];
    TickHandsOver(s0, "2", RevisingNode(t1));
    var s1 := FirstTick(Some(s0), t1).value;
    TickHandsOver(s1, "3", FinalizingNode(t2));
    var s2 := SecondTick(Some(s1), t2).value;
    assert ActiveOnly(s2.nodes, "4");
    CompleteOnlyActive(s2.nodes, "4");
    var done := CompleteNode(s2.nodes, "4");
    assert done + [] == done;
  }

  /** Ticks look nodes up by the fixed ids "2", "3", "4" and never consult the
      thread id: two threads with the same nodes tick identically. */
  lemma TicksIgnoreThreadId(a: string, b: string, nodes: seq<ThreadNode>, now: int)
    ensures FirstTick(Some(ChatThread(a, nodes)), now).value.nodes
         == FirstTick(Some(ChatThread(b, nodes)), now).value.nodes
    ensures SecondTick(Some(ChatThread(a, nodes)), now).value.nodes
         == SecondTick(Some(ChatThread(b, nodes)), now).value.nodes
    ensures ThirdTick(Some(ChatThread(a, nodes))).value.nodes
         == ThirdTick(Some(ChatThread(b, nodes))).value.nodes
  {
  }

  /** A second send before the first turn's ticks have fired: the first turn's
      pending second tick lands on the new thread, finds no node "3" to
      complete and appends node "4" as active beside the still-active node "2". */
  lemma StaleTickTwoActive(threadB: string, t0: int, t1: int)
    ensures ActiveCount(SecondTick(Some(InitialThread(threadB, t0)), t1).value.nodes) == 2
  {
    var s := InitialThread(threadB, t0);
    var r := SecondTick(Some(s), t1).value.nodes;
    assert r == [s.nodes[0]] + [s.nodes[1]] + [FinalizingNode(t1)];
    ActiveCountAppend([s.nodes[0]] + [s.nodes[1]], [FinalizingNode(t1)]);
    ActiveCountAppend([s.nodes[0]], [s.nodes[1]]);
  }

  /** The user message the log starts with. */
  const Greeting: string := "Build me a profit and loss table for a typical fast food restaurant"

  /** The component's state: the `useState` hooks the send handler and its
      timers write. */
  class ThreadChatInterface {
    var messages: seq<Message>
    var currentThread: Option<ChatThread>
    var inputValue: string
    var isProcessing: bool

    /** The initial log holds the one seeded user message (id "1"). */
    constructor (now: int)
      ensures messages == [Message("1", User, Greeting, now)]
      ensures currentThread == None && inputValue == "" && !isProcessing
    {
      messages := [Message("1", User, Greeting, now)];
      currentThread := None;
      inputValue := "";
      isProcessing := false;
    }

    /** The input box's onChange. */
    method SetInput(text: string)
      modifies this`inputValue
      ensures inputValue == text
    {
      inputValue := text;
    }

    /** `handleSendMessage`, up to scheduling its three timers. A blank input
        changes nothing; otherwise one user message carrying the input is
        appended and a fresh thread replaces any previous one. */
    method Submit(messageId: string, threadId: string, now: int)
      modifies this`messages, this`inputValue, this`isProcessing, this`currentThread
      ensures IsBlank(old(inputValue)) ==> unchanged(this)
      ensures !IsBlank(old(inputValue)) ==>
        && messages == old(messages) + [Message(messageId, User, old(inputValue), now)]
        && inputValue == "" && isProcessing
        && currentThread == Some(InitialThread(threadId, now))
    {
      TrimEmptyIffBlank(inputValue);
      if Trim(inputValue) == [] {
        return;
      }
      messages := messages + [Message(messageId, User, inputValue, now)];
      inputValue := "";
      isProcessing := true;
      currentThread := Some(InitialThread(threadId, now));
    }

    /** The send button and the Enter key: both are disabled while a turn is
        processing, and processing is cleared only by a turn's last timer. */
    method ClickSend(messageId: string, threadId: string, now: int)
      requires !isProcessing
      modifies this`messages, this`inputValue, this`isProcessing, this`currentThread
      ensures IsBlank(old(inputValue)) ==> unchanged(this)
      ensures !IsBlank(old(inputValue)) ==>
        && messages == old(messages) + [Message(messageId, User, old(inputValue), now)]
        && inputValue == "" && isProcessing
        && currentThread == Some(InitialThread(threadId, now))
    {
      Submit(messageId, threadId, now);
    }

    /** The first timer (2000 ms): "Thinking" completed, "Revising Model" active. */
    method OnFirstTick(now: int)
      modifies this`currentThread
      ensures currentThread == FirstTick(old(currentThread), now)
    {
      currentThread := FirstTick(currentThread, now);
    }

    /** The second timer (4000 ms): "Revising Model" completed, "Finalizing
        Model" active, and one system message with the interim text appended. */
    method OnSecondTick(messageId: string, now: int)
      modifies this`currentThread, this`messages
      ensures currentThread == SecondTick(old(currentThread), now)
      ensures messages == old(messages) + [Message(messageId, System, InterimText, now)]
    {
      currentThread := SecondTick(currentThread, now);
      messages := messages + [Message(messageId, System, InterimText, now)];
    }

    /** The third timer (6000 ms): "Finalizing Model" completed, no node
        added, one final system message appended and processing cleared. */
    method OnThirdTick(messageId: string, now: int)
      modifies this`currentThread, this`messages, this`isProcessing
      ensures currentThread == ThirdTick(old(currentThread))
      ensures messages == old(messages) + [Message(messageId, System, FinalText, now)]
      ensures !isProcessing
    {
      currentThread := ThirdTick(currentThread);
      messages := messages + [Message(messageId, System, FinalText, now)];
      isProcessing := false;
    }
  }

  /** One turn driven to completion through the class: the log grows by
      exactly three messages and the thread ends with four completed nodes. */
  method OneTurn(input: string, t0: int, t1: int, t2: int, t3: int)
    returns (log: seq<Message>, thread: Option<ChatThread>)
    requires !IsBlank(input)
    ensures |log| == 4 && log[0] == Message("1", User, Greeting, t0)
    ensures log[1] == Message("m1", User, input, t0)
    ensures log[2].content == InterimText && log[3].content == FinalText
    ensures thread.Some? && |thread.value.nodes| == 4 && ActiveCount(thread.value.nodes) == 0
  {
    var panel := new ThreadChatInterface(t0);
    panel.SetInput(input);
    panel.Submit("m1", "th1", t0);
    panel.OnFirstTick(t1);
    panel.OnSecondTick("m1_1", t2);
    panel.OnThirdTick("m1_2", t3);
    InOrderTurn("th1", t0, t1, t2);
    log, thread := panel.messages, panel.currentThread;
  }
}
