/** The root-cause-analysis stage (solution/agents/rca_agent.py and its earlier `clap` version
    solution_clap_backup/agents/rca_agent.py): it hands the error trace to an agent, reads an
    `RCAResult` out of the agent's final text, stores it in the shared memory and logs what it
    did. */
module RcaAgent {
  import opened Wrappers
  import opened Json
  import opened Records
  import opened Extraction
  import opened SharedMemory
  import opened MessageLog
  import opened StageRunner

  const AgentName := "RCA_Agent"
  const Section := "rca"
  /** The text whose presence in the last message means the task was already handed over. */
  const Marker := "Root Cause Analysis"

  const RootCauseFallback := "Unable to parse structured output - see raw analysis"
  const EvidenceFallback := "Raw output parsing required manual review"

  /** The task info of the start event. */
  function TaskInfo(tracePath: string): JObj {
    map["task" := JStr(Marker),
        "trace_path" := JStr(tracePath),
        "tools" := JList([JStr("parse_error_trace"), JStr("read_file"), JStr("list_directory")])]
  }

  /** The record built from a decoded object: the declared keys with their defaults, the line
      converted by `int()` (the whole parse fails when that raises) and no timestamp yet. */
  function RcaFromObject(data: JObj): (r: Option<RCAResult>)
    ensures r.None? <==> ToInt(Get(data, "affected_line", JInt(0))).None?
    ensures r.Some? ==> r.value.affectedLine == JInt(ToInt(Get(data, "affected_line", JInt(0))).value)
    ensures r.Some? ==> r.value.timestamp == EmptyText
    ensures r.Some? ==> forall k :: k in data && k in RcaFields && k != "affected_line" && k != "timestamp" ==>
                          RcaToDict(r.value)[k] == data[k]
  {
    match ToInt(Get(data, "affected_line", JInt(0)))
    case None => None
    case Some(n) => Some(RcaFromDict(data).(affectedLine := JInt(n), timestamp := EmptyText))
  }

  /** A record whose line is an integer comes back from its own dict, less its timestamp. */
  lemma RcaObjectRoundTrip(r: RCAResult)
    requires r.affectedLine.JInt?
    ensures RcaFromObject(RcaToDict(r)) == Some(r.(timestamp := EmptyText))
  {
    RcaDictRoundTrip(r);
  }

  /** The text the parser decodes: the first tier's flat object holding "error_type", else the
      second tier's lazy object holding "evidence" and a `]`. */
  function Span(output: string): (r: Option<(nat, nat)>)
    ensures r.Some? ==> r.value.0 < r.value.1 <= |output| && output[r.value.0] == '{'
                        && output[r.value.1 - 1] == '}'
    ensures r.None? <==> (forall p, e :: !FlatMatch(output, Quoted("error_type"), p, e))
                         && (forall p, e :: !LazyMatch(output, Quoted("evidence"), p, e))
    ensures (exists p, e :: FlatMatch(output, Quoted("error_type"), p, e)) ==> r == FlatSpan(output, "error_type")
  {
    var flat := FlatSpan(output, "error_type");
    if flat.Some? then flat else LazySpan(output, "evidence")
  }

  /** The record of an output that holds no JSON object but names an error type. */
  function Degraded(errorType: string, errorMessage: string): RCAResult {
    RCAResult(JStr(errorType), JStr(errorMessage), JStr(RootCauseFallback), EmptyText, JInt(0),
              EmptyText, JList([JStr(EvidenceFallback)]), EmptyText)
  }

  /** `parse_rca_output`. A span that fails to decode, or whose line `int()` rejects, gives no
      record (the exception is caught); without a span the labelled text is searched. */
  function ParseRcaOutput(output: string, decode: Decoder): (r: Option<RCAResult>)
    ensures r.Some? ==> r.value.timestamp == EmptyText && r.value.affectedLine.JInt?
    ensures Span(output).Some? ==>
              var (p, e) := Span(output).value;
              (decode(output[p..e]).None? ==> r == None)
              && (decode(output[p..e]).Some? ==> r == RcaFromObject(decode(output[p..e]).value))
    ensures Span(output).None? ==> (r.Some? <==> exists i, q, e :: TypeMatch(output, i, q, e))
    ensures Span(output).None? && r.Some? ==>
              r.value.errorType.JStr? && IsErrorName(r.value.errorType.s)
              && r.value.rootCause == JStr(RootCauseFallback)
              && r.value.evidence == JList([JStr(EvidenceFallback)])
              && r.value.errorMessage.JStr? && '\n' !in r.value.errorMessage.s
    ensures Span(output).None? && r.Some? ==>
              r.value.errorType == JStr(ErrorTypeSearch(output).value)
              && r.value.errorMessage == JStr(LineSearch(output, "Error Message", "error_message").GetOr(""))
              && r.value.affectedFile == EmptyText && r.value.affectedLine == JInt(0)
              && r.value.affectedFunction == EmptyText
  {
    match Span(output)
    case Some((p, e)) =>
      (match decode(output[p..e])
       case None => None
       case Some(data) => RcaFromObject(data))
    case None =>
      match ErrorTypeSearch(output)
      case None => None
      case Some(t) => Some(Degraded(t, LineSearch(output, "Error Message", "error_message").GetOr("")))
  }

  /** An object that decodes to a record's own dict is read back as that record, without
      its timestamp, whatever labelled text surrounds it. */
  lemma ParseReadsBackRecord(output: string, decode: Decoder, r: RCAResult)
    requires r.affectedLine.JInt?
    requires Span(output).Some?
    requires decode(output[Span(output).value.0..Span(output).value.1]) == Some(RcaToDict(r))
    ensures ParseRcaOutput(output, decode) == Some(r.(timestamp := EmptyText))
  {
    RcaObjectRoundTrip(r);
  }

  /** The degraded record keeps the error message line when there is one, and "" otherwise. */
  lemma DegradedMessage(output: string, decode: Decoder)
    requires Span(output).None?
    requires ParseRcaOutput(output, decode).Some?
    ensures var msg := ParseRcaOutput(output, decode).value.errorMessage;
            (forall i, q, e :: !LineMatch(output, "Error Message", "error_message", i, q, e)) <==> msg == EmptyText
  {
  }

  /** The state of the store after a stage that parsed `rec` (nothing changes when it parsed
      nothing). */
  function StoreAfter(s: StoreState, rec: Option<RCAResult>, now: string): StoreState {
    match rec
    case None => s
    case Some(r) => s.(rca := Some(RcaToDict(r.(timestamp := JStr(now)))),
                       metadata := s.metadata.(lastUpdated := now))
  }

  /** The events of one run of the stage, after its start. */
  function Trace(tracePath: string, tools: seq<Logged>, outcome: Outcome<string>, decode: Decoder,
                 durationMs: int): seq<Logged>
  {
    RunTrace(tracePath, tools, outcome, Parsed(outcome, decode).Some?, durationMs)
  }

  /** The events of one run of the stage, given whether an analysis was parsed. */
  function RunTrace(tracePath: string, tools: seq<Logged>, outcome: Outcome<string>, parsed: bool,
                    durationMs: int): seq<Logged>
  {
    StageTrace(AgentName, TaskInfo(tracePath), tools, outcome, Section, RcaFields, parsed, durationMs)
  }

  /** The record a stage parses from its agent's outcome: none when the agent raised. */
  function Parsed(agent: Outcome<string>, decode: Decoder): Option<RCAResult> {
    if agent.Done? then ParseRcaOutput(agent.value, decode) else None
  }

  /** `to_dict` lists the keys in field order, each once: the order the memory update logs. */
  lemma KeysInFieldOrder(r: RCAResult)
    ensures Enumerates(RcaFields, RcaToDict(r).Keys)
  {
  }

  /** The dict `set_rca` stores for a parsed record: the record with its new timestamp. */
  function Stored(rec: Option<RCAResult>, now: string): (d: Option<JObj>)
    ensures d.Some? <==> rec.Some?
    ensures d.Some? ==> Enumerates(RcaFields, d.value.Keys)
  {
    if rec.Some? then
      KeysInFieldOrder(rec.value.(timestamp := JStr(now)));
      Some(RcaToDict(rec.value.(timestamp := JStr(now))))
    else None
  }

  /** `set_rca` of a parsed record; nothing happens when no record was parsed. */
  method Store(memory: SharedMemory, rec: Option<RCAResult>, now: string)
    modifies memory
    ensures memory.state == StoreAfter(old(memory.state), rec, now)
    ensures memory.GetRcaDict() == if rec.Some? then Stored(rec, now) else old(memory.GetRcaDict())
  {
    if rec.Some? {
      var stamped := memory.SetRca(rec.value, now);
    }
  }

  /** One run of the stage on the agent's outcome: parse it, log the run, store the result. */
  method RunStage(logger: MessageLogger, memory: SharedMemory, tracePath: string, msgs: seq<Message>,
                  outcome: Outcome<string>, decode: Decoder, durationMs: int, now: string)
    returns (rec: Option<RCAResult>)
    requires logger.Valid()
    modifies logger, memory
    ensures logger.Valid()
    ensures rec == Parsed(outcome, decode)
    ensures logger.events == old(logger.events)
              + Stamp(|old(logger.events)|, now, old(logger.Iteration(AgentName)) + 1,
                      RunTrace(tracePath, ToolTrace(AgentName, msgs), outcome, rec.Some?, durationMs))
    ensures memory.state == StoreAfter(old(memory.state), rec, now)
  {
    rec := Parsed(outcome, decode);
    Record(logger, memory, tracePath, msgs, outcome, rec, durationMs, now);
  }

  /** The effects of one run of the stage whose agent's outcome parsed to `rec`: log the run with the tool
      messages, store the analysis. */
  method Record(logger: MessageLogger, memory: SharedMemory, tracePath: string, msgs: seq<Message>,
                outcome: Outcome<string>, rec: Option<RCAResult>, durationMs: int, now: string)
    requires logger.Valid()
    modifies logger, memory
    ensures logger.Valid()
    ensures logger.events == old(logger.events)
              + Stamp(|old(logger.events)|, now, old(logger.Iteration(AgentName)) + 1,
                      RunTrace(tracePath, ToolTrace(AgentName, msgs), outcome, rec.Some?, durationMs))
    ensures memory.state == StoreAfter(old(memory.state), rec, now)
  {
    LogStage(logger, AgentName, TaskInfo(tracePath), msgs, outcome, Section, Stored(rec, now).GetOr(map[]),
             RcaFields, rec.Some?, durationMs, now);
    Store(memory, rec, now);
  }

  /** `rca_node`: logs the start, hands the conversation (with the task appended unless the
      last message already mentions "Root Cause Analysis") to the agent, logs and re-raises its
      exception, or logs its tool traffic, stores and logs a parsed record, and logs the end. */
  method RcaNode(logger: MessageLogger, memory: SharedMemory, tracePath: string, task: string,
                 messages: seq<Message>, agent: Outcome<seq<Message>>, decode: Decoder,
                 durationMs: int, now: string)
    returns (sent: seq<Message>, result: Outcome<NodeUpdate>)
    requires logger.Valid()
    modifies logger, memory
    ensures logger.Valid()
    ensures sent == WithTask(messages, task, Marker, false)
    ensures logger.events == old(logger.events)
              + Stamp(|old(logger.events)|, now, old(logger.Iteration(AgentName)) + 1,
                      Trace(tracePath, ToolTrace(AgentName, AgentMessages(agent)), FinalOutcome(agent),
                            decode, durationMs))
    ensures agent.Raised? ==> memory.state == old(memory.state)
                              && result == Raised(agent.errorType, agent.errorMessage)
    ensures agent.Done? ==>
              var rec := ParseRcaOutput(FinalContent(agent.value), decode);
              memory.state == StoreAfter(old(memory.state), rec, now)
              && result == Done(NodeUpdate(agent.value, memory.state.rca))
  {
    sent := WithTask(messages, task, Marker, false);
    var rec := RunStage(logger, memory, tracePath, AgentMessages(agent), FinalOutcome(agent), decode,
                        durationMs, now);
    match agent {
      case Raised(t, m) =>
        result := Raised(t, m);
      case Done(msgs) =>
        result := Done(NodeUpdate(msgs, memory.GetRcaDict()));
    }
  }

  /** `run_rca_agent` of the LangGraph version: runs the node on an empty conversation and
      reports whatever the store's analysis slot holds afterwards — which, when this run parsed
      nothing, is the analysis an earlier run stored. */
  method RunRcaNode(logger: MessageLogger, memory: SharedMemory, tracePath: string, task: string,
                    agent: Outcome<seq<Message>>, decode: Decoder, durationMs: int, now: string)
    returns (result: Outcome<RunReport>)
    requires logger.Valid()
    modifies logger, memory
    ensures logger.Valid()
    ensures logger.events == old(logger.events)
              + Stamp(|old(logger.events)|, now, old(logger.Iteration(AgentName)) + 1,
                      Trace(tracePath, ToolTrace(AgentName, AgentMessages(agent)), FinalOutcome(agent),
                            decode, durationMs))
    ensures agent.Raised? ==> memory.state == old(memory.state)
                              && result == Raised(agent.errorType, agent.errorMessage)
    ensures agent.Done? ==>
              var rec := ParseRcaOutput(FinalContent(agent.value), decode);
              memory.state == StoreAfter(old(memory.state), rec, now)
              && result.Done?
              && result.value.output == FinalContent(agent.value)
              && result.value.parsed == memory.state.rca
              && (result.value.success <==> rec.Some? || old(memory.state.rca).Some?)
  {
    var sent, update := RcaNode(logger, memory, tracePath, task, [], agent, decode, durationMs, now);
    match update {
      case Raised(t, m) =>
        result := Raised(t, m);
      case Done(u) =>
        var slot := memory.GetRcaDict();
        result := Done(RunReport(FinalContent(u.messages), slot, slot.Some?));
    }
  }

  /** `run_rca_agent` of the `clap` version: the same stage without a conversation or tool
      events; the agent's exception is logged and re-raised, and the report carries the record
      this run parsed, with its new timestamp. */
  method RunRcaAgent(logger: MessageLogger, memory: SharedMemory, tracePath: string,
                     agent: Outcome<string>, decode: Decoder, durationMs: int, now: string)
    returns (result: Outcome<RunReport>)
    requires logger.Valid()
    modifies logger, memory
    ensures logger.Valid()
    ensures logger.events == old(logger.events)
              + Stamp(|old(logger.events)|, now, old(logger.Iteration(AgentName)) + 1,
                      Trace(tracePath, [], agent, decode, durationMs))
    ensures agent.Raised? ==> memory.state == old(memory.state)
                              && result == Raised(agent.errorType, agent.errorMessage)
    ensures agent.Done? ==>
              var rec := ParseRcaOutput(agent.value, decode);
              memory.state == StoreAfter(old(memory.state), rec, now)
              && result == Done(RunReport(agent.value,
                                          if rec.Some? then Some(RcaToDict(rec.value.(timestamp := JStr(now))))
                                          else None,
                                          rec.Some?))
  {
    var rec := RunStage(logger, memory, tracePath, [], agent, decode, durationMs, now);
    assert ToolTrace(AgentName, []) == [];
    var stored := Stored(rec, now);
    match agent {
      case Raised(t, m) =>
        result := Raised(t, m);
      case Done(output) =>
        result := Done(RunReport(output, stored, stored.Some?));
    }
  }
}
