/** The append-only event log of a pipeline run (`MessageLogger` in
    solution/core/message_logger.py). Every event gets the next id of a counter and the
    current iteration of its agent; long texts are cut to fixed caps with a marker or a flag.
    The lock is not modelled, the clock reading of each call is the parameter `now` and the
    random session id is the parameter `uuid`. */
module MessageLog {
  import opened Wrappers
  import opened Text
  import opened Json

  datatype EventType =
    | AgentStart | AgentEnd | ToolCall | ToolResult | LlmRequest | LlmResponse
    | MemoryUpdate | Error | System
  {
    /** The string value of the enum member, which is what an event records. */
    function Value(): string {
      match this
      case AgentStart => "agent_start"
      case AgentEnd => "agent_end"
      case ToolCall => "tool_call"
      case ToolResult => "tool_result"
      case LlmRequest => "llm_request"
      case LlmResponse => "llm_response"
      case MemoryUpdate => "memory_update"
      case Error => "error"
      case System => "system"
    }
  }

  /** Distinct event types are recorded as distinct strings. */
  lemma EventTypeValueInjective(a: EventType, b: EventType)
    ensures a.Value() == b.Value() ==> a == b
  {
  }

  datatype Event = Event(
    eventId: int,
    timestamp: string,
    agentName: string,
    eventType: string,
    iteration: int,
    data: JObj)

  /** `LogEvent.to_dict()`. */
  function EventToDict(e: Event): JObj {
    map["event_id" := JInt(e.eventId), "timestamp" := JStr(e.timestamp),
        "agent_name" := JStr(e.agentName), "event_type" := JStr(e.eventType),
        "iteration" := JInt(e.iteration), "data" := JObject(e.data)]
  }

  const ToolResultCap: nat := 2000
  const TextCap: nat := 1000
  const TruncationMarker := "... [truncated]"

  /** A text of at most `cap` characters is kept; a longer one is cut to its first `cap`
      characters followed by the marker. */
  function Truncated(s: string, cap: nat): (r: string)
    ensures |s| <= cap ==> r == s
    ensures |s| > cap ==> |r| == cap + |TruncationMarker| && r[..cap] == s[..cap]
                          && r[cap..] == TruncationMarker
  {
    if |s| > cap then Prefix(s, cap) + TruncationMarker else s
  }

  /** The data of an `agent_start` event, with the defaults for missing task-info keys. */
  function StartData(taskInfo: JObj): (d: JObj)
    ensures d.Keys == {"task", "context_received", "tools_available"}
    ensures d["task"] == Get(taskInfo, "task", JStr(""))
    ensures d["context_received"] == Get(taskInfo, "context", JObject(map[]))
    ensures d["tools_available"] == Get(taskInfo, "tools", JList([]))
  {
    map["task" := Get(taskInfo, "task", JStr("")),
        "context_received" := Get(taskInfo, "context", JObject(map[])),
        "tools_available" := Get(taskInfo, "tools", JList([]))]
  }

  /** The data of an `agent_end` event: a missing `success` counts as success. */
  function EndData(result: JObj): (d: JObj)
    ensures d.Keys == {"output", "success", "duration_ms"}
    ensures "success" !in result ==> d["success"] == JBool(true)
    ensures "success" in result ==> d["success"] == result["success"]
    ensures d["output"] == Get(result, "output", JStr(""))
    ensures d["duration_ms"] == Get(result, "duration_ms", JInt(0))
  {
    map["output" := Get(result, "output", JStr("")),
        "success" := Get(result, "success", JBool(true)),
        "duration_ms" := Get(result, "duration_ms", JInt(0))]
  }

  /** The data of the `tool_result` event of `log_tool_call`: a falsy result is recorded as
      `None`, not truncated; any other result as the first 2000 characters of its text, with
      the flag set exactly when text was lost. */
  function ToolResultData(toolName: string, result: JValue): (d: JObj)
    ensures d.Keys == {"tool_name", "result", "result_truncated"}
    ensures !Truthy(result) ==> d["result"] == JNull && d["result_truncated"] == JBool(false)
    ensures Truthy(result) ==>
              d["result"].JStr? && |d["result"].s| <= ToolResultCap
              && StartsWith(Show(result), d["result"].s)
              && d["result_truncated"] == JBool(d["result"].s != Show(result))
  {
    map["tool_name" := JStr(toolName),
        "result" := if Truthy(result) then JStr(Prefix(Show(result), ToolResultCap)) else JNull,
        "result_truncated" := JBool(Truthy(result) && |Show(result)| > ToolResultCap)]
  }

  /** One request message as logged: a truthy `content` whose text is longer than 1000
      characters is replaced by its truncation; every other key, and every other message, is
      kept as it is. */
  function TruncateContent(m: JObj): (r: JObj)
    ensures r.Keys == m.Keys
    ensures forall k :: k in m && k != "content" ==> r[k] == m[k]
    ensures r != m ==> "content" in m && Truthy(m["content"]) && |Show(m["content"])| > TextCap
    ensures "content" in m && Truthy(m["content"]) && |Show(m["content"])| > TextCap ==>
              r["content"] == JStr(Truncated(Show(m["content"]), TextCap))
  {
    if "content" in m && Truthy(m["content"]) && |Show(m["content"])| > TextCap then
      m["content" := JStr(Truncated(Show(m["content"]), TextCap))]
    else m
  }

  /** The `tools_provided` list: for each tool description, the `name` inside its `function`
      entry, "unknown" when missing. A `function` entry that is not a dict raises
      `AttributeError`, modelled as `None`. */
  function ToolNames(tools: seq<JObj>): (r: Option<seq<JValue>>)
    ensures r.Some? <==> forall k :: 0 <= k < |tools| && "function" in tools[k] ==>
                                      tools[k]["function"].JObject?
    ensures r.Some? ==> |r.value| == |tools|
    ensures r.Some? ==> forall k :: 0 <= k < |tools| ==>
              r.value[k] == Get(Get(tools[k], "function", JObject(map[])).fields, "name", JStr("unknown"))
    decreases |tools|
  {
    if tools == [] then Some([])
    else
      var f := Get(tools[0], "function", JObject(map[]));
      if !f.JObject? then None
      else
        match ToolNames(tools[1..])
        case None => None
        case Some(rest) => Some([Get(f.fields, "name", JStr("unknown"))] + rest)
  }

  /** The data of an `llm_response` event. */
  function ResponseData(textContent: Option<string>, toolCalls: seq<JValue>): (d: JObj)
    ensures d.Keys == {"text_content", "tool_calls", "has_tool_calls"}
    ensures textContent.None? ==> d["text_content"] == JNull
    ensures textContent.Some? ==> d["text_content"] == JStr(Truncated(textContent.value, TextCap))
    ensures d["has_tool_calls"] == JBool(toolCalls != [])
  {
    map["text_content" := if textContent.Some? then JStr(Truncated(textContent.value, TextCap)) else JNull,
        "tool_calls" := JList(toolCalls),
        "has_tool_calls" := JBool(toolCalls != [])]
  }

  /** `order` lists the keys of a dict, each once: the order in which Python iterates them. */
  predicate Enumerates(order: seq<string>, keys: set<string>) {
    (forall k :: k in keys ==> k in order)
    && (forall i :: 0 <= i < |order| ==> order[i] in keys)
    && forall i, j :: 0 <= i < j < |order| ==> order[i] != order[j]
  }

  function KeyList(order: seq<string>): (l: seq<JValue>)
    ensures |l| == |order| && forall i :: 0 <= i < |order| ==> l[i] == JStr(order[i])
  {
    seq(|order|, i requires 0 <= i < |order| => JStr(order[i]))
  }

  /** The data of a `tool_call` event. */
  function ToolCallData(toolName: string, arguments: JObj): JObj {
    map["tool_name" := JStr(toolName), "arguments" := JObject(arguments)]
  }

  /** The data of a `memory_update` event: the section and its keys in the given order. */
  function MemoryData(section: string, keyOrder: seq<string>): JObj {
    map["section" := JStr(section), "keys_updated" := JList(KeyList(keyOrder))]
  }

  /** The data of an `error` event. */
  function ErrorData(errorType: string, errorMessage: string, details: Option<JObj>): (d: JObj)
    ensures d.Keys == {"error_type", "error_message", "details"}
    ensures d["details"] == JObject(if details.Some? then details.value else map[])
  {
    map["error_type" := JStr(errorType), "error_message" := JStr(errorMessage),
        "details" := JObject(if details.Some? then details.value else map[])]
  }

  /** The data of a `system` event: the message, overlaid by the extra data, whose keys win. */
  function SystemData(message: string, extra: JObj): (d: JObj)
    ensures d.Keys == extra.Keys + {"message"}
    ensures forall k :: k in extra ==> d[k] == extra[k]
    ensures "message" !in extra ==> d["message"] == JStr(message)
  {
    map["message" := JStr(message)] + extra
  }

  predicate IdsInOrder(es: seq<Event>) {
    forall i, j :: 0 <= i < j < |es| ==> es[i].eventId < es[j].eventId
  }

  /** The events of one agent, in log order. */
  function OfAgent(es: seq<Event>, agentName: string): (r: seq<Event>)
    ensures forall e :: e in r <==> e in es && e.agentName == agentName
    ensures |r| <= |es|
    decreases |es|
  {
    if es == [] then []
    else
      var rest := OfAgent(es[1..], agentName);
      assert forall e :: e in es <==> e == es[0] || e in es[1..];
      if es[0].agentName == agentName then [es[0]] + rest else rest
  }

  /** Selecting one agent's events keeps their order. */
  lemma {:induction false} OfAgentInOrder(es: seq<Event>, agentName: string)
    requires IdsInOrder(es)
    ensures IdsInOrder(OfAgent(es, agentName))
    decreases |es|
  {
    if es != [] {
      var tail := es[1..];
      TailInOrder(es);
      OfAgentInOrder(tail, agentName);
      if es[0].agentName == agentName {
        var rest := OfAgent(tail, agentName);
        forall e | e in rest ensures es[0].eventId < e.eventId {
          var k :| 0 <= k < |tail| && tail[k] == e;
          assert es[k + 1] == e;
        }
        ConsInOrder(es[0], rest);
      }
    }
  }

  lemma TailInOrder(es: seq<Event>)
    requires es != [] && IdsInOrder(es)
    ensures IdsInOrder(es[1..])
  {
    var tail := es[1..];
    forall i, j | 0 <= i < j < |tail| ensures tail[i].eventId < tail[j].eventId {
      assert tail[i] == es[i + 1] && tail[j] == es[j + 1];
    }
  }

  lemma ConsInOrder(x: Event, rest: seq<Event>)
    requires IdsInOrder(rest)
    requires forall e :: e in rest ==> x.eventId < e.eventId
    ensures IdsInOrder([x] + rest)
  {
    var r := [x] + rest;
    forall i, j | 0 <= i < j < |r| ensures r[i].eventId < r[j].eventId {
      assert r[j] == rest[j - 1];
      if i > 0 {
        assert r[i] == rest[i - 1];
      }
    }
  }

  /** The names of the agents that logged an event, the "system" pseudo-agent excluded. */
  function AgentsOf(es: seq<Event>): (names: set<string>)
    ensures "system" !in names
    ensures forall a :: a in names <==> a != "system" && exists e :: e in es && e.agentName == a
  {
    set e | e in es && e.agentName != "system" :: e.agentName
  }

  datatype FullLog = FullLog(
    sessionId: string,
    startTime: string,
    endTime: string,
    totalEvents: int,
    agentsInvolved: set<string>,
    events: seq<JObj>)

  class MessageLogger {
    var sessionId: string
    var startTime: string
    var events: seq<Event>
    var eventCounter: int
    var currentIterations: map<string, int>

    /** The counter has handed out exactly the ids 1, 2, 3, ... of the events, in order. */
    predicate Valid()
      reads this
    {
      eventCounter == |events| && forall i :: 0 <= i < |events| ==> events[i].eventId == i + 1
    }

    /** An empty log; a missing or empty session id is replaced by the first eight characters
        of a fresh UUID. */
    constructor(givenId: Option<string>, uuid: string, now: string)
      ensures sessionId == if givenId.Some? && givenId.value != "" then givenId.value else Prefix(uuid, 8)
      ensures startTime == now && events == [] && eventCounter == 0 && currentIterations == map[]
      ensures Valid()
    {
      sessionId := if givenId.Some? && givenId.value != "" then givenId.value else Prefix(uuid, 8);
      startTime := now;
      events := [];
      eventCounter := 0;
      currentIterations := map[];
    }

    /** `_get_iteration`: 0 for an agent that never started. */
    function Iteration(agentName: string): int
      reads this
    {
      if agentName in currentIterations then currentIterations[agentName] else 0
    }

    /** `log_event`: appends one event with the next id; without an explicit iteration it
        carries the agent's current iteration, which it does not change. A missing data dict
        is the empty dict. */
    method LogEvent(agentName: string, eventType: EventType, data: JObj, iteration: Option<int>, now: string)
      requires Valid()
      modifies this
      ensures Valid()
      ensures events == old(events) + [Event(|old(events)| + 1, now, agentName, eventType.Value(),
                                             if iteration.Some? then iteration.value else old(Iteration(agentName)),
                                             data)]
      ensures currentIterations == old(currentIterations)
      ensures sessionId == old(sessionId) && startTime == old(startTime)
    {
      eventCounter := eventCounter + 1;
      var iter := if iteration.Some? then iteration.value else Iteration(agentName);
      events := events + [Event(eventCounter, now, agentName, eventType.Value(), iter, data)];
    }

    /** `log_agent_start`: raises the agent's iteration by one, leaves every other agent's
        alone, and stamps the start event with the new value. */
    method LogAgentStart(agentName: string, taskInfo: JObj, now: string)
      requires Valid()
      modifies this
      ensures Valid()
      ensures currentIterations == old(currentIterations)[agentName := old(Iteration(agentName)) + 1]
      ensures Iteration(agentName) == old(Iteration(agentName)) + 1
      ensures forall a :: a != agentName ==> Iteration(a) == old(Iteration(a))
      ensures events == old(events) + [Event(|old(events)| + 1, now, agentName, AgentStart.Value(),
                                             old(Iteration(agentName)) + 1, StartData(taskInfo))]
      ensures sessionId == old(sessionId) && startTime == old(startTime)
    {
      var next := Iteration(agentName) + 1;
      currentIterations := currentIterations[agentName := next];
      LogEvent(agentName, AgentStart, StartData(taskInfo), Some(next), now);
    }

    /** `log_agent_end`. */
    method LogAgentEnd(agentName: string, result: JObj, now: string)
      requires Valid()
      modifies this
      ensures Valid()
      ensures events == old(events) + [Event(|old(events)| + 1, now, agentName, AgentEnd.Value(),
                                             old(Iteration(agentName)), EndData(result))]
      ensures currentIterations == old(currentIterations)
      ensures sessionId == old(sessionId) && startTime == old(startTime)
    {
      LogEvent(agentName, AgentEnd, EndData(result), None, now);
    }

    /** `log_tool_call`: a `tool_call` event followed by a `tool_result` event. */
    method LogToolCall(agentName: string, toolName: string, arguments: JObj, result: JValue, now: string)
      requires Valid()
      modifies this
      ensures Valid()
      ensures events == old(events)
        + [Event(|old(events)| + 1, now, agentName, ToolCall.Value(), old(Iteration(agentName)),
                 ToolCallData(toolName, arguments)),
           Event(|old(events)| + 2, now, agentName, ToolResult.Value(), old(Iteration(agentName)),
                 ToolResultData(toolName, result))]
      ensures currentIterations == old(currentIterations)
      ensures sessionId == old(sessionId) && startTime == old(startTime)
    {
      LogEvent(agentName, ToolCall, ToolCallData(toolName, arguments), None, now);
      LogEvent(agentName, ToolResult, ToolResultData(toolName, result), None, now);
    }

    /** `log_llm_request`: the messages with long contents truncated, the tool names and the
        message count. When a tool's `function` entry is not a dict the call raises before
        anything is logged (`ok` is false). */
    method LogLlmRequest(agentName: string, model: string, messages: seq<JObj>, tools: seq<JObj>, now: string)
      returns (ok: bool)
      requires Valid()
      modifies this
      ensures Valid()
      ensures ok <==> ToolNames(tools).Some?
      ensures !ok ==> events == old(events)
      ensures ok ==> (events == old(events)
        + [Event(|old(events)| + 1, now, agentName, LlmRequest.Value(), old(Iteration(agentName)),
                 map["model" := JStr(model),
                     "messages" := JList(seq(|messages|, i requires 0 <= i < |messages| =>
                                               JObject(TruncateContent(messages[i])))),
                     "tools_provided" := JList(ToolNames(tools).value),
                     "message_count" := JInt(|messages|)])])
      ensures currentIterations == old(currentIterations)
      ensures sessionId == old(sessionId) && startTime == old(startTime)
    {
      var truncated := TruncateMessages(messages);
      var names := ToolNames(tools);
      if names.None? {
        return false;
      }
      var logged := seq(|truncated|, i requires 0 <= i < |truncated| => JObject(truncated[i]));
      assert logged == seq(|messages|, i requires 0 <= i < |messages| => JObject(TruncateContent(messages[i])));
      LogEvent(agentName, LlmRequest,
               map["model" := JStr(model), "messages" := JList(logged),
                   "tools_provided" := JList(names.value), "message_count" := JInt(|messages|)],
               None, now);
      return true;
    }

    /** `log_llm_response`: the text truncated only when longer than 1000 characters. */
    method LogLlmResponse(agentName: string, textContent: Option<string>, toolCalls: seq<JValue>, now: string)
      requires Valid()
      modifies this
      ensures Valid()
      ensures events == old(events) + [Event(|old(events)| + 1, now, agentName, LlmResponse.Value(),
                                             old(Iteration(agentName)), ResponseData(textContent, toolCalls))]
      ensures currentIterations == old(currentIterations)
      ensures sessionId == old(sessionId) && startTime == old(startTime)
    {
      LogEvent(agentName, LlmResponse, ResponseData(textContent, toolCalls), None, now);
    }

    /** `log_memory_update`: the section and the updated keys, in the dict's own order. */
    method LogMemoryUpdate(agentName: string, section: string, data: JObj, keyOrder: seq<string>, now: string)
      requires Valid()
      requires Enumerates(keyOrder, data.Keys)
      modifies this
      ensures Valid()
      ensures events == old(events) + [Event(|old(events)| + 1, now, agentName, MemoryUpdate.Value(),
                                             old(Iteration(agentName)),
                                             MemoryData(section, keyOrder))]
      ensures currentIterations == old(currentIterations)
      ensures sessionId == old(sessionId) && startTime == old(startTime)
    {
      LogEvent(agentName, MemoryUpdate, MemoryData(section, keyOrder), None, now);
    }

    /** `log_error`. */
    method LogError(agentName: string, errorType: string, errorMessage: string, details: Option<JObj>, now: string)
      requires Valid()
      modifies this
      ensures Valid()
      ensures events == old(events) + [Event(|old(events)| + 1, now, agentName, Error.Value(),
                                             old(Iteration(agentName)), ErrorData(errorType, errorMessage, details))]
      ensures currentIterations == old(currentIterations)
      ensures sessionId == old(sessionId) && startTime == old(startTime)
    {
      LogEvent(agentName, Error, ErrorData(errorType, errorMessage, details), None, now);
    }

    /** `log_system`: an event of the "system" pseudo-agent. */
    method LogSystem(message: string, extra: JObj, now: string)
      requires Valid()
      modifies this
      ensures Valid()
      ensures events == old(events) + [Event(|old(events)| + 1, now, "system", System.Value(),
                                             old(Iteration("system")), SystemData(message, extra))]
      ensures currentIterations == old(currentIterations)
      ensures sessionId == old(sessionId) && startTime == old(startTime)
    {
      LogEvent("system", System, SystemData(message, extra), None, now);
    }

    /** `get_events_for_agent`. */
    function GetEventsForAgent(agentName: string): seq<Event>
      reads this
    {
      OfAgent(events, agentName)
    }

    /** `get_full_log`: the event count is the length of the event list, and the agents
        involved are the event authors other than "system". */
    function GetFullLog(now: string): (r: FullLog)
      reads this
      ensures r.totalEvents == |r.events| == |events|
      ensures forall i :: 0 <= i < |events| ==> r.events[i] == EventToDict(events[i])
      ensures forall a :: a in r.agentsInvolved <==>
                a != "system" && exists i :: 0 <= i < |events| && events[i].agentName == a
    {
      var es := events;
      var ds := seq(|es|, i requires 0 <= i < |es| => EventToDict(es[i]));
      FullLog(sessionId, startTime, now, |ds|, AgentsOf(events), ds)
    }
  }

  /** The events of one agent, as logged, carry increasing ids when the log is valid. */
  lemma EventsForAgentInLogOrder(logger: MessageLogger, agentName: string)
    requires logger.Valid()
    ensures IdsInOrder(logger.GetEventsForAgent(agentName))
    ensures forall e :: e in logger.GetEventsForAgent(agentName) <==>
              e in logger.events && e.agentName == agentName
  {
    OfAgentInOrder(logger.events, agentName);
  }

  /** `log_llm_request`'s copy loop: each message copied, with its content truncated. */
  method TruncateMessages(messages: seq<JObj>) returns (out: seq<JObj>)
    ensures |out| == |messages|
    ensures forall i :: 0 <= i < |messages| ==> out[i] == TruncateContent(messages[i])
  {
    out := [];
    var i := 0;
    while i < |messages|
      invariant 0 <= i <= |messages|
      invariant |out| == i
      invariant forall k :: 0 <= k < i ==> out[k] == TruncateContent(messages[k])
    {
      var m := messages[i];
      if "content" in m && Truthy(m["content"]) {
        var content := Show(m["content"]);
        if |content| > TextCap {
          m := m["content" := JStr(Prefix(content, TextCap) + TruncationMarker)];
        }
      }
      out := out + [m];
      i := i + 1;
    }
  }
}
