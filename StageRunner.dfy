/** What the three pipeline stages have in common around their agent: the conversation they
    hand to it, the result or exception it comes back with, the tool events they log from its
    messages, and the order of the events a stage appends to the log. The agent itself (a
    LangGraph ReAct executor in solution/agents, a `clap` Agent in solution_clap_backup/agents)
    is opaque: its outcome is a parameter. */
module StageRunner {
  import opened Wrappers
  import opened Text
  import opened Json
  import opened MessageLog

  datatype ToolRequest = ToolRequest(name: string, args: JObj)

  /** A chat message: its role ("human", "ai" or "tool"), its text, the tool calls an AI
      message requests, and the tool a tool message answers for. */
  datatype Message = Message(kind: string, content: string, toolCalls: seq<ToolRequest>, name: string)

  function HumanMessage(text: string): Message {
    Message("human", text, [], "")
  }

  /** What an opaque call comes back with: a value, or the type name and text of the
      exception it raised. */
  datatype Outcome<T> = Done(value: T) | Raised(errorType: string, errorMessage: string)

  /** What a LangGraph node returns: the conversation and the stage's slot of the store. */
  datatype NodeUpdate = NodeUpdate(messages: seq<Message>, slot: Option<JObj>)

  /** What a `run_*_agent` function returns: the agent's text, the parsed record as a dict,
      and whether there is one. */
  datatype RunReport = RunReport(output: string, parsed: Option<JObj>, success: bool)

  /** The conversation an executor returned, or none when it raised. */
  function AgentMessages(agent: Outcome<seq<Message>>): seq<Message> {
    if agent.Done? then agent.value else []
  }

  /** The text an executor's outcome leaves the stage to parse, or the exception it raised. */
  function FinalOutcome(agent: Outcome<seq<Message>>): (r: Outcome<string>)
    ensures r.Raised? <==> agent.Raised?
    ensures agent.Raised? ==> r == Raised(agent.errorType, agent.errorMessage)
  {
    match agent
    case Done(msgs) => Done(FinalContent(msgs))
    case Raised(t, m) => Raised(t, m)
  }

  const SummaryCap: nat := 500

  /** The `output` of an end event: the text when it has at most 500 characters, otherwise its
      first 500 followed by "...". */
  function Summary(output: string): (r: string)
    ensures |output| <= SummaryCap ==> r == output
    ensures |output| > SummaryCap ==> |r| == SummaryCap + 3 && r[..SummaryCap] == output[..SummaryCap]
                                      && r[SummaryCap..] == "..."
  {
    Prefix(output, SummaryCap) + (if |output| > SummaryCap then "..." else "")
  }

  /** The text a message shows when searched for a stage marker, folded to lower case when
      the stage compares case-insensitively. */
  function MarkerText(m: Message, foldCase: bool): string {
    if foldCase then Lower(m.content) else m.content
  }

  /** A stage adds its task message when the conversation is empty or its last message does
      not mention the stage's marker. */
  predicate TaskNeeded(messages: seq<Message>, marker: string, foldCase: bool) {
    messages == [] || !Contains(MarkerText(messages[|messages| - 1], foldCase), marker)
  }

  /** The conversation handed to the agent. */
  function WithTask(messages: seq<Message>, task: string, marker: string, foldCase: bool): (r: seq<Message>)
    ensures |r| >= |messages| && r[..|messages|] == messages
    ensures TaskNeeded(messages, marker, foldCase) ==> r == messages + [HumanMessage(task)]
    ensures !TaskNeeded(messages, marker, foldCase) ==> r == messages
  {
    if TaskNeeded(messages, marker, foldCase) then messages + [HumanMessage(task)] else messages
  }

  /** When the task text itself mentions the marker, handing the conversation over a second
      time adds nothing: the task message is never duplicated. */
  lemma WithTaskIdempotent(messages: seq<Message>, task: string, marker: string, foldCase: bool)
    requires Contains(MarkerText(HumanMessage(task), foldCase), marker)
    ensures WithTask(WithTask(messages, task, marker, foldCase), task, marker, foldCase)
            == WithTask(messages, task, marker, foldCase)
  {
    var once := WithTask(messages, task, marker, foldCase);
    if TaskNeeded(messages, marker, foldCase) {
      assert once[|once| - 1] == HumanMessage(task);
    } else {
      assert once == messages;
    }
  }

  // ---------------------------------------------------------------------------------------
  // Events as a stage appends them

  /** An event without the parts the logger adds itself (id, timestamp, iteration). */
  datatype Logged = Logged(agentName: string, eventType: string, data: JObj)

  /** The events the logger stores for `ls` when appending them after `base` events, all at
      iteration `iteration`. */
  function Stamp(base: nat, now: string, iteration: int, ls: seq<Logged>): (es: seq<Event>)
    ensures |es| == |ls|
  {
    seq(|ls|, i requires 0 <= i < |ls| =>
      Event(base + i + 1, now, ls[i].agentName, ls[i].eventType, iteration, ls[i].data))
  }

  /** The `i`-th stored event carries the `i`-th entry, numbered after the `base` events
      already in the log. */
  lemma StampAt(base: nat, now: string, iteration: int, ls: seq<Logged>)
    ensures forall i :: 0 <= i < |ls| ==>
              Stamp(base, now, iteration, ls)[i]
              == Event(base + i + 1, now, ls[i].agentName, ls[i].eventType, iteration, ls[i].data)
  {
  }

  lemma StampOne(base: nat, now: string, iteration: int, l: Logged)
    ensures Stamp(base, now, iteration, [l]) == [Event(base + 1, now, l.agentName, l.eventType, iteration, l.data)]
  {
    StampAt(base, now, iteration, [l]);
  }

  lemma StampAppend(base: nat, now: string, iteration: int, xs: seq<Logged>, ys: seq<Logged>)
    ensures Stamp(base, now, iteration, xs + ys)
            == Stamp(base, now, iteration, xs) + Stamp(base + |xs|, now, iteration, ys)
  {
    StampAt(base, now, iteration, xs + ys);
    StampAt(base, now, iteration, xs);
    StampAt(base + |xs|, now, iteration, ys);
  }

  /** Entries stamped as they are appended after earlier stamped entries are the stamped
      concatenation. */
  lemma StampedAppend(prior: seq<Event>, mid: seq<Event>, after: seq<Event>, now: string, iteration: int,
                      xs: seq<Logged>, ys: seq<Logged>)
    requires mid == prior + Stamp(|prior|, now, iteration, xs)
    requires after == mid + Stamp(|mid|, now, iteration, ys)
    ensures after == prior + Stamp(|prior|, now, iteration, xs + ys)
  {
    StampAppend(|prior|, now, iteration, xs, ys);
  }

  /** The data of a `tool_result` event a stage logs from a tool message: the first 2000
      characters of its text, flagged exactly when text was cut off. */
  function ToolMessageData(msg: Message): (d: JObj)
    ensures d.Keys == {"tool_name", "result", "result_truncated"}
    ensures d["result"].JStr? && |d["result"].s| <= ToolResultCap
    ensures StartsWith(msg.content, d["result"].s)
    ensures d["result_truncated"] == JBool(d["result"].s != msg.content)
  {
    map["tool_name" := JStr(msg.name),
        "result" := JStr(Prefix(msg.content, ToolResultCap)),
        "result_truncated" := JBool(|msg.content| > ToolResultCap)]
  }

  function CallEntries(agentName: string, calls: seq<ToolRequest>): (ls: seq<Logged>)
    ensures |ls| == |calls|
    ensures forall i :: 0 <= i < |calls| ==>
              ls[i] == Logged(agentName, EventType.ToolCall.Value(), ToolCallData(calls[i].name, calls[i].args))
    decreases |calls|
  {
    if calls == [] then []
    else CallEntries(agentName, calls[..|calls| - 1])
         + [Logged(agentName, EventType.ToolCall.Value(), ToolCallData(calls[|calls| - 1].name, calls[|calls| - 1].args))]
  }

  lemma CallEntriesSnoc(agentName: string, calls: seq<ToolRequest>, j: nat)
    requires j < |calls|
    ensures CallEntries(agentName, calls[..j + 1])
            == CallEntries(agentName, calls[..j])
               + [Logged(agentName, EventType.ToolCall.Value(), ToolCallData(calls[j].name, calls[j].args))]
  {
    assert calls[..j + 1][..j] == calls[..j];
  }

  /** The events one agent message produces: a `tool_call` per requested call, then a
      `tool_result` if it is a tool message. */
  function MessageEntries(agentName: string, msg: Message): seq<Logged> {
    CallEntries(agentName, msg.toolCalls)
    + (if msg.kind == "tool" then [Logged(agentName, ToolResult.Value(), ToolMessageData(msg))] else [])
  }

  /** The tool events of a whole conversation, message by message. */
  function ToolTrace(agentName: string, msgs: seq<Message>): seq<Logged>
    decreases |msgs|
  {
    if msgs == [] then []
    else ToolTrace(agentName, msgs[..|msgs| - 1]) + MessageEntries(agentName, msgs[|msgs| - 1])
  }

  lemma ToolTraceSnoc(agentName: string, msgs: seq<Message>, i: nat)
    requires i < |msgs|
    ensures ToolTrace(agentName, msgs[..i + 1]) == ToolTrace(agentName, msgs[..i]) + MessageEntries(agentName, msgs[i])
  {
    assert msgs[..i + 1][..i] == msgs[..i];
  }

  /** The tool events are all the agent's own, and all `tool_call` or `tool_result`. */
  lemma {:induction false} ToolTraceKinds(agentName: string, msgs: seq<Message>)
    ensures forall l :: l in ToolTrace(agentName, msgs) ==>
              l.agentName == agentName
              && (l.eventType == EventType.ToolCall.Value() || l.eventType == ToolResult.Value())
    decreases |msgs|
  {
    if msgs != [] {
      ToolTraceKinds(agentName, msgs[..|msgs| - 1]);
      var last := msgs[|msgs| - 1];
      assert forall l :: l in CallEntries(agentName, last.toolCalls) ==>
               l.agentName == agentName && l.eventType == EventType.ToolCall.Value();
    }
  }

  /** The inner loop of the tool-event logging: one `tool_call` event per requested call. */
  method LogToolCalls(logger: MessageLogger, agentName: string, calls: seq<ToolRequest>, now: string)
    requires logger.Valid()
    modifies logger
    ensures logger.Valid()
    ensures logger.events == old(logger.events)
              + Stamp(|old(logger.events)|, now, old(logger.Iteration(agentName)), CallEntries(agentName, calls))
    ensures logger.currentIterations == old(logger.currentIterations)
    ensures logger.sessionId == old(logger.sessionId) && logger.startTime == old(logger.startTime)
  {
    ghost var base := |logger.events|;
    ghost var iter := logger.Iteration(agentName);
    var j := 0;
    while j < |calls|
      invariant 0 <= j <= |calls|
      invariant logger.Valid()
      invariant logger.currentIterations == old(logger.currentIterations)
      invariant logger.sessionId == old(logger.sessionId) && logger.startTime == old(logger.startTime)
      invariant logger.events == old(logger.events) + Stamp(base, now, iter, CallEntries(agentName, calls[..j]))
    {
      var call := calls[j];
      var entry := Logged(agentName, EventType.ToolCall.Value(), ToolCallData(call.name, call.args));
      ghost var mid := logger.events;
      logger.LogEvent(agentName, EventType.ToolCall, ToolCallData(call.name, call.args), None, now);
      StampOne(|mid|, now, iter, entry);
      StampedAppend(old(logger.events), mid, logger.events, now, iter, CallEntries(agentName, calls[..j]), [entry]);
      CallEntriesSnoc(agentName, calls, j);
      j := j + 1;
    }
    assert calls[..j] == calls;
  }

  /** The events of one message of the conversation. */
  method LogMessageEvents(logger: MessageLogger, agentName: string, msg: Message, now: string)
    requires logger.Valid()
    modifies logger
    ensures logger.Valid()
    ensures logger.events == old(logger.events)
              + Stamp(|old(logger.events)|, now, old(logger.Iteration(agentName)), MessageEntries(agentName, msg))
    ensures logger.currentIterations == old(logger.currentIterations)
    ensures logger.sessionId == old(logger.sessionId) && logger.startTime == old(logger.startTime)
  {
    ghost var iter := logger.Iteration(agentName);
    LogToolCalls(logger, agentName, msg.toolCalls, now);
    if msg.kind == "tool" {
      ghost var mid := logger.events;
      var entry := Logged(agentName, ToolResult.Value(), ToolMessageData(msg));
      logger.LogEvent(agentName, ToolResult, ToolMessageData(msg), None, now);
      StampOne(|mid|, now, iter, entry);
      StampedAppend(old(logger.events), mid, logger.events, now, iter, CallEntries(agentName, msg.toolCalls), [entry]);
    } else {
      assert MessageEntries(agentName, msg) == CallEntries(agentName, msg.toolCalls);
    }
  }

  /** The tool-event loop of `rca_node` and `patch_node`. */
  method LogToolEvents(logger: MessageLogger, agentName: string, msgs: seq<Message>, now: string)
    requires logger.Valid()
    modifies logger
    ensures logger.Valid()
    ensures logger.events == old(logger.events)
              + Stamp(|old(logger.events)|, now, old(logger.Iteration(agentName)), ToolTrace(agentName, msgs))
    ensures logger.currentIterations == old(logger.currentIterations)
    ensures logger.sessionId == old(logger.sessionId) && logger.startTime == old(logger.startTime)
  {
    ghost var base := |logger.events|;
    ghost var iter := logger.Iteration(agentName);
    var i := 0;
    while i < |msgs|
      invariant 0 <= i <= |msgs|
      invariant logger.Valid()
      invariant logger.currentIterations == old(logger.currentIterations)
      invariant logger.sessionId == old(logger.sessionId) && logger.startTime == old(logger.startTime)
      invariant logger.events == old(logger.events) + Stamp(base, now, iter, ToolTrace(agentName, msgs[..i]))
    {
      ghost var mid := logger.events;
      LogMessageEvents(logger, agentName, msgs[i], now);
      StampedAppend(old(logger.events), mid, logger.events, now, iter, ToolTrace(agentName, msgs[..i]),
                    MessageEntries(agentName, msgs[i]));
      ToolTraceSnoc(agentName, msgs, i);
      i := i + 1;
    }
    assert msgs[..i] == msgs;
  }

  /** The text of the agent's last message, or "" for an empty conversation. */
  function FinalContent(msgs: seq<Message>): string {
    if msgs == [] then "" else msgs[|msgs| - 1].content
  }

  /** The data of the end event of a stage whose agent returned `output`. */
  function EndResult(output: string, parsed: bool, durationMs: int): JObj {
    map["output" := JStr(Summary(output)), "success" := JBool(parsed), "duration_ms" := JInt(durationMs)]
  }

  /** The closing events of a stage whose agent returned: a memory update when a record was
      parsed, then the end event. */
  function EndEntries(agentName: string, output: string, section: string, keyOrder: seq<string>,
                      parsed: bool, durationMs: int): seq<Logged>
  {
    (if parsed then [Logged(agentName, MemoryUpdate.Value(), MemoryData(section, keyOrder))] else [])
    + [Logged(agentName, AgentEnd.Value(), EndData(EndResult(output, parsed, durationMs)))]
  }

  /** The events a stage appends, in order: the start event; then either the error event of a
      raising agent, or the tool events, a memory update when a record was parsed, and the end
      event. */
  function StageTrace(agentName: string, taskInfo: JObj, tools: seq<Logged>, outcome: Outcome<string>,
                      section: string, keyOrder: seq<string>, parsed: bool, durationMs: int): seq<Logged>
  {
    [Logged(agentName, AgentStart.Value(), StartData(taskInfo))]
    + match outcome
      case Raised(t, m) => [Logged(agentName, Error.Value(), ErrorData(t, m, None))]
      case Done(output) => tools + EndEntries(agentName, output, section, keyOrder, parsed, durationMs)
  }

  /** The closing events of a stage: the memory update of a parsed record's dict (its keys in
      `keyOrder`), then the end event. */
  method LogStageEnd(logger: MessageLogger, agentName: string, output: string, parsed: bool,
                     section: string, data: JObj, keyOrder: seq<string>, durationMs: int, now: string)
    requires logger.Valid()
    requires parsed ==> Enumerates(keyOrder, data.Keys)
    modifies logger
    ensures logger.Valid()
    ensures logger.events == old(logger.events)
              + Stamp(|old(logger.events)|, now, old(logger.Iteration(agentName)),
                      EndEntries(agentName, output, section, keyOrder, parsed, durationMs))
    ensures logger.currentIterations == old(logger.currentIterations)
    ensures logger.sessionId == old(logger.sessionId) && logger.startTime == old(logger.startTime)
  {
    ghost var iter := logger.Iteration(agentName);
    ghost var mem: seq<Logged> := [];
    if parsed {
      logger.LogMemoryUpdate(agentName, section, data, keyOrder, now);
      mem := [Logged(agentName, MemoryUpdate.Value(), MemoryData(section, keyOrder))];
      StampOne(|old(logger.events)|, now, iter, mem[0]);
    } else {
      assert Stamp(|old(logger.events)|, now, iter, mem) == [];
    }
    ghost var mid := logger.events;
    var result := EndResult(output, parsed, durationMs);
    var end := Logged(agentName, AgentEnd.Value(), EndData(result));
    logger.LogAgentEnd(agentName, result, now);
    StampOne(|mid|, now, iter, end);
    StampedAppend(old(logger.events), mid, logger.events, now, iter, mem, [end]);
  }

  /** The trace of a stage whose agent returned, in its three parts. */
  lemma StageTraceDone(agentName: string, taskInfo: JObj, tools: seq<Logged>, output: string, section: string,
                       keyOrder: seq<string>, parsed: bool, durationMs: int)
    ensures StageTrace(agentName, taskInfo, tools, Done(output), section, keyOrder, parsed, durationMs)
            == [Logged(agentName, AgentStart.Value(), StartData(taskInfo))] + tools
               + EndEntries(agentName, output, section, keyOrder, parsed, durationMs)
  {
  }

  /** The log after a stage whose agent returned: its start event, its tool events and its
      closing events, appended one after the other, are the stamped trace of the stage. */
  lemma StageEventsDone(prior: seq<Event>, started: seq<Event>, mid: seq<Event>, ended: seq<Event>, now: string,
                        iteration: int, agentName: string, taskInfo: JObj, tools: seq<Logged>,
                        output: string, section: string, keyOrder: seq<string>, parsed: bool,
                        durationMs: int)
    requires started == prior + Stamp(|prior|, now, iteration,
                                      [Logged(agentName, AgentStart.Value(), StartData(taskInfo))])
    requires mid == started + Stamp(|started|, now, iteration, tools)
    requires ended == mid + Stamp(|mid|, now, iteration,
                                  EndEntries(agentName, output, section, keyOrder, parsed, durationMs))
    ensures ended == prior + Stamp(|prior|, now, iteration,
                                   StageTrace(agentName, taskInfo, tools, Done(output), section, keyOrder,
                                              parsed, durationMs))
  {
    var start := [Logged(agentName, AgentStart.Value(), StartData(taskInfo))];
    var ends := EndEntries(agentName, output, section, keyOrder, parsed, durationMs);
    StampedAppend(prior, started, mid, now, iteration, start, tools);
    StampedAppend(prior, mid, ended, now, iteration, start + tools, ends);
    StageTraceDone(agentName, taskInfo, tools, output, section, keyOrder, parsed, durationMs);
  }

  /** The log after a stage whose agent raised: its start event and the error event. */
  lemma StageEventsRaised(prior: seq<Event>, started: seq<Event>, ended: seq<Event>, now: string,
                          iteration: int, agentName: string, taskInfo: JObj, errorType: string,
                          errorMessage: string, section: string, keyOrder: seq<string>, parsed: bool,
                          durationMs: int)
    requires started == prior + Stamp(|prior|, now, iteration,
                                      [Logged(agentName, AgentStart.Value(), StartData(taskInfo))])
    requires ended == started + Stamp(|started|, now, iteration,
                                      [Logged(agentName, Error.Value(), ErrorData(errorType, errorMessage, None))])
    ensures forall tools :: ended == prior + Stamp(|prior|, now, iteration,
                                   StageTrace(agentName, taskInfo, tools, Raised(errorType, errorMessage), section,
                                              keyOrder, parsed, durationMs))
  {
    var start := [Logged(agentName, AgentStart.Value(), StartData(taskInfo))];
    var err := [Logged(agentName, Error.Value(), ErrorData(errorType, errorMessage, None))];
    StampAppend(|prior|, now, iteration, start, err);
  }

  /** Every event a stage logs, in the order the node logs them: the start event (raising the
      agent's iteration), then the error event of a raising agent, or the tool events of its
      conversation `msgs`, the memory update of a parsed record and the end event. */
  method LogStage(logger: MessageLogger, agentName: string, taskInfo: JObj, msgs: seq<Message>,
                  outcome: Outcome<string>, section: string, data: JObj, keyOrder: seq<string>,
                  parsed: bool, durationMs: int, now: string)
    requires logger.Valid()
    requires parsed ==> Enumerates(keyOrder, data.Keys)
    modifies logger
    ensures logger.Valid()
    ensures logger.events == old(logger.events)
              + Stamp(|old(logger.events)|, now, old(logger.Iteration(agentName)) + 1,
                      StageTrace(agentName, taskInfo, ToolTrace(agentName, msgs), outcome, section, keyOrder,
                                 parsed, durationMs))
    ensures logger.currentIterations == old(logger.currentIterations)[agentName := old(logger.Iteration(agentName)) + 1]
    ensures logger.sessionId == old(logger.sessionId) && logger.startTime == old(logger.startTime)
  {
    ghost var prior := logger.events;
    logger.LogAgentStart(agentName, taskInfo, now);
    ghost var iter := logger.Iteration(agentName);
    ghost var started := logger.events;
    StampOne(|prior|, now, iter, Logged(agentName, AgentStart.Value(), StartData(taskInfo)));
    match outcome {
      case Raised(t, m) =>
        logger.LogError(agentName, t, m, None, now);
        StampOne(|started|, now, iter, Logged(agentName, Error.Value(), ErrorData(t, m, None)));
        StageEventsRaised(prior, started, logger.events, now, iter, agentName, taskInfo, t, m, section,
                          keyOrder, parsed, durationMs);
      case Done(output) =>
        LogToolEvents(logger, agentName, msgs, now);
        ghost var mid := logger.events;
        LogStageEnd(logger, agentName, output, parsed, section, data, keyOrder, durationMs, now);
        StageEventsDone(prior, started, mid, logger.events, now, iter, agentName, taskInfo,
                        ToolTrace(agentName, msgs), output, section, keyOrder, parsed, durationMs);
    }
  }

  /** A stage whose agent returned starts with its start event and ends with its end event,
      whose `success` is "a record was parsed" and whose output is the summary of the text. */
  lemma StageTraceEnds(agentName: string, taskInfo: JObj, tools: seq<Logged>, output: string,
                       section: string, keyOrder: seq<string>, parsed: bool, durationMs: int)
    ensures var t := StageTrace(agentName, taskInfo, tools, Done(output), section, keyOrder, parsed, durationMs);
            && t[0].eventType == AgentStart.Value()
            && t[|t| - 1].eventType == AgentEnd.Value()
            && t[|t| - 1].data["success"] == JBool(parsed)
            && t[|t| - 1].data["output"] == JStr(Summary(output))
  {
  }

  /** A stage whose agent returned logs a memory update exactly when a record was parsed. */
  lemma StageTraceMemoryIffParsed(agentName: string, taskInfo: JObj, msgs: seq<Message>, output: string,
                                  section: string, keyOrder: seq<string>, parsed: bool, durationMs: int)
    ensures var t := StageTrace(agentName, taskInfo, ToolTrace(agentName, msgs), Done(output), section,
                                keyOrder, parsed, durationMs);
            (exists l :: l in t && l.eventType == MemoryUpdate.Value()) <==> parsed
  {
    var tools := ToolTrace(agentName, msgs);
    var mem := if parsed then [Logged(agentName, MemoryUpdate.Value(), MemoryData(section, keyOrder))] else [];
    var end := Logged(agentName, AgentEnd.Value(), EndData(EndResult(output, parsed, durationMs)));
    var start := Logged(agentName, AgentStart.Value(), StartData(taskInfo));
    var t := StageTrace(agentName, taskInfo, tools, Done(output), section, keyOrder, parsed, durationMs);
    StageTraceDone(agentName, taskInfo, tools, output, section, keyOrder, parsed, durationMs);
    assert t == [start] + tools + mem + [end];
    ToolTraceKinds(agentName, msgs);
    EventTypeValueInjective(MemoryUpdate, AgentStart);
    EventTypeValueInjective(MemoryUpdate, AgentEnd);
    EventTypeValueInjective(MemoryUpdate, ToolCall);
    EventTypeValueInjective(MemoryUpdate, ToolResult);
    forall l | l in t && l.eventType == MemoryUpdate.Value() ensures parsed {
      assert l == start || l in tools || l in mem || l == end;
    }
    if parsed {
      assert t[1 + |tools|] == mem[0];
    }
  }

  /** The end event of a stage whose agent returned is its only one, and comes last. */
  lemma StageTraceEndIsLast(agentName: string, taskInfo: JObj, msgs: seq<Message>, output: string,
                            section: string, keyOrder: seq<string>, parsed: bool, durationMs: int)
    ensures var t := StageTrace(agentName, taskInfo, ToolTrace(agentName, msgs), Done(output), section,
                                keyOrder, parsed, durationMs);
            forall k :: 0 <= k < |t| - 1 ==> t[k].eventType != AgentEnd.Value()
  {
    var tools := ToolTrace(agentName, msgs);
    var mem := if parsed then [Logged(agentName, MemoryUpdate.Value(), MemoryData(section, keyOrder))] else [];
    var end := Logged(agentName, AgentEnd.Value(), EndData(EndResult(output, parsed, durationMs)));
    var start := Logged(agentName, AgentStart.Value(), StartData(taskInfo));
    var t := StageTrace(agentName, taskInfo, tools, Done(output), section, keyOrder, parsed, durationMs);
    StageTraceDone(agentName, taskInfo, tools, output, section, keyOrder, parsed, durationMs);
    assert t == [start] + tools + mem + [end];
    ToolTraceKinds(agentName, msgs);
    EventTypeValueInjective(AgentEnd, AgentStart);
    EventTypeValueInjective(AgentEnd, MemoryUpdate);
    EventTypeValueInjective(AgentEnd, ToolCall);
    EventTypeValueInjective(AgentEnd, ToolResult);
    forall k | 0 <= k < |t| - 1 ensures t[k].eventType != AgentEnd.Value() {
      if 1 <= k < 1 + |tools| {
        assert t[k] == tools[k - 1];
        assert tools[k - 1] in tools;
      }
    }
  }

  /** A stage whose agent raised appends only its start event and the error event: no end
      event, no memory update. */
  lemma StageTraceOnRaise(agentName: string, taskInfo: JObj, tools: seq<Logged>, errorType: string,
                          errorMessage: string, section: string, keyOrder: seq<string>, parsed: bool,
                          durationMs: int)
    ensures StageTrace(agentName, taskInfo, tools, Raised(errorType, errorMessage), section, keyOrder,
                       parsed, durationMs)
            == [Logged(agentName, AgentStart.Value(), StartData(taskInfo)),
                Logged(agentName, Error.Value(), ErrorData(errorType, errorMessage, None))]
  {
  }
}
