/** The fix-plan stage (solution/agents/fix_agent.py and its earlier `clap` version
    solution_clap_backup/agents/fix_agent.py): it hands the stored analysis to an agent that has
    no tools, reads a `FixPlan` out of the agent's final text, stores it in the shared memory and
    logs what it did. */
module FixAgent {
  import opened Wrappers
  import opened Json
  import opened Records
  import opened Extraction
  import opened SharedMemory
  import opened MessageLog
  import opened StageRunner

  const AgentName := "Fix_Suggestion_Agent"
  const Section := "fix_plan"
  /** Compared with the last message folded to lower case. */
  const Marker := "fix plan"

  const NoRcaContext := "No RCA data available"
  const StepsFallback := "Manual parsing required - see raw output"
  const OutcomeFallback := "Review raw output for details"

  /** The starts `str.find` tries, in order, when the regex span does not decode. */
  const Starts: seq<string> := ["{\"description\"", "{\n    \"description\"", "{\n  \"description\""]

  /** The analysis as the task text shows it: its JSON dump (`dumped`, which `json.dumps`
      produces and is not modelled) when the store holds a non-empty one, otherwise a note. */
  function RcaContext(rca: Option<JObj>, dumped: string): string {
    if rca.Some? && rca.value != map[] then dumped else NoRcaContext
  }

  /** The task text carries the dumped analysis exactly when `get_rca` would return a record. */
  lemma RcaContextIffRecord(memory: SharedMemory, dumped: string)
    ensures RcaContext(memory.GetRcaDict(), dumped) == if memory.GetRca().Some? then dumped else NoRcaContext
  {
  }

  /** The task info of the start event; `hasRca` is whether the store's analysis slot is set. */
  function TaskInfo(hasRca: bool): JObj {
    map["task" := JStr("Generate Fix Plan"),
        "context" := JObject(map["has_rca" := JBool(hasRca)]),
        "tools" := JList([])]
  }

  /** The text the parser first decodes: the first tier's flat object holding "description",
      else the second tier's lazy object holding "steps" and a `]`. */
  function Span(output: string): (r: Option<(nat, nat)>)
    ensures r.Some? ==> r.value.0 < r.value.1 <= |output| && output[r.value.0] == '{'
                        && output[r.value.1 - 1] == '}'
    ensures r.None? <==> (forall p, e :: !FlatMatch(output, Quoted("description"), p, e))
                         && (forall p, e :: !LazyMatch(output, Quoted("steps"), p, e))
    ensures (exists p, e :: FlatMatch(output, Quoted("description"), p, e)) ==> r == FlatSpan(output, "description")
  {
    var flat := FlatSpan(output, "description");
    if flat.Some? then flat else LazySpan(output, "steps")
  }

  /** The plan built from a decoded object: its four declared keys, with their defaults when
      absent, other keys ignored and no timestamp yet. */
  function PlanFromObject(data: JObj): (f: FixPlan)
    ensures f.timestamp == EmptyText
    ensures forall k :: k in data && k in FixFields && k != "timestamp" ==> FixToDict(f)[k] == data[k]
    ensures "description" !in data ==> f.description == EmptyText
    ensures "steps" !in data ==> f.steps == EmptyList
    ensures "safety_considerations" !in data ==> f.safetyConsiderations == EmptyList
    ensures "expected_outcome" !in data ==> f.expectedOutcome == EmptyText
  {
    FixKeepsDeclared(data);
    FixFromDict(data).(timestamp := EmptyText)
  }

  /** A plan comes back from its own dict, less its timestamp. */
  lemma PlanObjectRoundTrip(f: FixPlan)
    ensures PlanFromObject(FixToDict(f)) == f.(timestamp := EmptyText)
  {
    FixDictRoundTrip(f);
  }

  /** The plan of an output that holds no JSON object but a labelled description line. */
  function Degraded(description: string): FixPlan {
    FixPlan(JStr(description), JList([JStr(StepsFallback)]), EmptyList, JStr(OutcomeFallback), EmptyText)
  }

  /** The object the parser builds its plan from once a span `output[p..e]` was found: the
      span decoded, else the recovered object. */
  function SpanData(output: string, p: nat, e: nat, decode: Decoder): Option<JObj>
    requires p <= e <= |output|
  {
    if decode(output[p..e]).Some? then decode(output[p..e]) else Retry(output, Starts, decode)
  }

  /** `parse_fix_output`. A span that decodes gives its plan; one that does not falls back on
      the brace scan from the first start variant, and no plan when that fails too (the
      exception is caught); without a span the labelled description line is used. */
  function ParseFix(output: string, decode: Decoder): (r: Option<FixPlan>)
    ensures r.Some? ==> r.value.timestamp == EmptyText
  {
    match Span(output)
    case Some((p, e)) =>
      (match SpanData(output, p, e, decode)
       case None => None
       case Some(d) => Some(PlanFromObject(d)))
    case None =>
      match LineSearch(output, "Description", "description")
      case None => None
      case Some(t) => Some(Degraded(t))
  }

  /** What `parse_fix_output` returns in each of its cases. */
  lemma ParseFixCases(output: string, decode: Decoder)
    ensures Span(output).Some? ==>
              var (p, e) := Span(output).value;
              var r := ParseFix(output, decode);
              (decode(output[p..e]).Some? ==> r == Some(PlanFromObject(decode(output[p..e]).value)))
              && (decode(output[p..e]).None? ==>
                    (r.Some? <==> Retry(output, Starts, decode).Some?)
                    && (r.Some? ==> r.value == PlanFromObject(Retry(output, Starts, decode).value)))
    ensures Span(output).None? ==>
              var r := ParseFix(output, decode);
              (r.Some? <==> exists i, q, e :: LineMatch(output, "Description", "description", i, q, e))
              && (r.Some? ==>
                    r.value.description.JStr? && r.value.description.s != "" && '\n' !in r.value.description.s
                    && r.value.description == JStr(LineSearch(output, "Description", "description").value)
                    && r.value.steps == JList([JStr(StepsFallback)])
                    && r.value.safetyConsiderations == EmptyList
                    && r.value.expectedOutcome == JStr(OutcomeFallback))
  {
  }

  /** The parser as it runs: the regex tiers, the decode, and the scanning recovery. */
  method ParseFixOutput(output: string, decode: Decoder) returns (r: Option<FixPlan>)
    ensures r == ParseFix(output, decode)
  {
    var span := Span(output);
    if span.None? {
      var line := LineSearch(output, "Description", "description");
      r := if line.Some? then Some(Degraded(line.value)) else None;
      return;
    }
    var p, e := span.value.0, span.value.1;
    var data := decode(output[p..e]);
    if data.None? {
      data := RetryScan(output, Starts, decode);
    }
    assert data == SpanData(output, p, e, decode);
    r := if data.Some? then Some(PlanFromObject(data.value)) else None;
  }

  /** An object that decodes to a plan's own dict is read back as that plan, without its
      timestamp. */
  lemma ParseReadsBackPlan(output: string, decode: Decoder, f: FixPlan)
    requires Span(output).Some?
    requires decode(output[Span(output).value.0..Span(output).value.1]) == Some(FixToDict(f))
    ensures ParseFix(output, decode) == Some(f.(timestamp := EmptyText))
  {
    PlanObjectRoundTrip(f);
  }

  /** When the span does not decode, a balanced object cut from the first start variant that
      decodes to a plan's dict still yields that plan. */
  lemma RecoveryReadsBackPlan(output: string, decode: Decoder, f: FixPlan, i: nat, e: nat)
    requires Span(output).Some?
    requires decode(output[Span(output).value.0..Span(output).value.1]).None?
    requires FirstStart(output, Starts).Some? && FirstStart(output, Starts).value.1 == i
    requires BraceEnd(output, i) == Some(e)
    requires decode(output[i..e]) == Some(FixToDict(f))
    ensures ParseFix(output, decode) == Some(f.(timestamp := EmptyText))
  {
    PlanObjectRoundTrip(f);
  }

  /** A span that does not decode, with no start variant or one whose braces never balance,
      gives no plan: the degraded line is not consulted once a span was found. */
  lemma UndecodableSpanGivesNothing(output: string, decode: Decoder)
    requires RejectsEmpty(decode)
    requires Span(output).Some?
    requires decode(output[Span(output).value.0..Span(output).value.1]).None?
    requires FirstStart(output, Starts).None? || BraceEnd(output, FirstStart(output, Starts).value.1).None?
    ensures ParseFix(output, decode) == None
  {
    ParseFixCases(output, decode);
  }

  /** The state of the store after a stage that parsed `rec`. */
  function StoreAfter(s: StoreState, rec: Option<FixPlan>, now: string): StoreState {
    match rec
    case None => s
    case Some(f) => s.(fixPlan := Some(FixToDict(f.(timestamp := JStr(now)))),
                       metadata := s.metadata.(lastUpdated := now))
  }

  /** The plan a stage parses from its agent's outcome: none when the agent raised. */
  function Parsed(agent: Outcome<string>, decode: Decoder): Option<FixPlan> {
    if agent.Done? then ParseFix(agent.value, decode) else None
  }

  /** The events of one run of the stage. The agent has no tools, so none are logged. */
  function Trace(hasRca: bool, outcome: Outcome<string>, decode: Decoder, durationMs: int): seq<Logged> {
    RunTrace(hasRca, outcome, Parsed(outcome, decode).Some?, durationMs)
  }

  /** The events of one run of the stage, given whether a plan was parsed. */
  function RunTrace(hasRca: bool, outcome: Outcome<string>, parsed: bool, durationMs: int): seq<Logged> {
    StageTrace(AgentName, TaskInfo(hasRca), [], outcome, Section, FixFields, parsed, durationMs)
  }

  /** The trace is the shared stage trace with no tool messages. */
  lemma TraceWithoutTools(hasRca: bool, outcome: Outcome<string>, parsed: bool, durationMs: int)
    ensures RunTrace(hasRca, outcome, parsed, durationMs)
            == StageTrace(AgentName, TaskInfo(hasRca), ToolTrace(AgentName, []), outcome, Section, FixFields,
                          parsed, durationMs)
  {
    assert ToolTrace(AgentName, []) == [];
  }

  /** `to_dict` lists the keys in field order, each once. */
  lemma KeysInFieldOrder(f: FixPlan)
    ensures Enumerates(FixFields, FixToDict(f).Keys)
  {
  }

  /** The dict `set_fix_plan` stores for a parsed plan. */
  function Stored(rec: Option<FixPlan>, now: string): (d: Option<JObj>)
    ensures d.Some? <==> rec.Some?
    ensures d.Some? ==> Enumerates(FixFields, d.value.Keys)
  {
    if rec.Some? then
      KeysInFieldOrder(rec.value.(timestamp := JStr(now)));
      Some(FixToDict(rec.value.(timestamp := JStr(now))))
    else None
  }

  /** `set_fix_plan` of a parsed plan; nothing happens when no plan was parsed. */
  method Store(memory: SharedMemory, rec: Option<FixPlan>, now: string)
    modifies memory
    ensures memory.state == StoreAfter(old(memory.state), rec, now)
    ensures memory.GetFixPlanDict() == if rec.Some? then Stored(rec, now) else old(memory.GetFixPlanDict())
  {
    if rec.Some? {
      var stamped := memory.SetFixPlan(rec.value, now);
    }
  }

  /** One run of the stage on the agent's outcome: parse it, log the run, store the result. */
  method RunStage(logger: MessageLogger, memory: SharedMemory, hasRca: bool, outcome: Outcome<string>,
                  decode: Decoder, durationMs: int, now: string)
    returns (rec: Option<FixPlan>)
    requires logger.Valid()
    modifies logger, memory
    ensures logger.Valid()
    ensures rec == Parsed(outcome, decode)
    ensures logger.events == old(logger.events)
              + Stamp(|old(logger.events)|, now, old(logger.Iteration(AgentName)) + 1,
                      RunTrace(hasRca, outcome, rec.Some?, durationMs))
    ensures memory.state == StoreAfter(old(memory.state), rec, now)
  {
    rec := Parsed(outcome, decode);
    Record(logger, memory, hasRca, outcome, rec, durationMs, now);
  }

  /** The effects of one run of the stage whose agent's outcome parsed to `rec`: log the run,
      store the plan. */
  method Record(logger: MessageLogger, memory: SharedMemory, hasRca: bool, outcome: Outcome<string>,
                rec: Option<FixPlan>, durationMs: int, now: string)
    requires logger.Valid()
    modifies logger, memory
    ensures logger.Valid()
    ensures logger.events == old(logger.events)
              + Stamp(|old(logger.events)|, now, old(logger.Iteration(AgentName)) + 1,
                      RunTrace(hasRca, outcome, rec.Some?, durationMs))
    ensures memory.state == StoreAfter(old(memory.state), rec, now)
  {
    LogStage(logger, AgentName, TaskInfo(hasRca), [], outcome, Section, Stored(rec, now).GetOr(map[]), FixFields,
             rec.Some?, durationMs, now);
    TraceWithoutTools(hasRca, outcome, rec.Some?, durationMs);
    Store(memory, rec, now);
  }

  /** `fix_node`: logs the start with whether an analysis is stored, hands the conversation
      (with the task appended unless the last message mentions "fix plan" in any case) to the
      agent, logs and re-raises its exception, or stores and logs a parsed plan and logs the
      end; the update carries the store's fix-plan slot. */
  method FixNode(logger: MessageLogger, memory: SharedMemory, task: string, messages: seq<Message>,
                 agent: Outcome<seq<Message>>, decode: Decoder, durationMs: int, now: string)
    returns (sent: seq<Message>, result: Outcome<NodeUpdate>)
    requires logger.Valid()
    modifies logger, memory
    ensures logger.Valid()
    ensures sent == WithTask(messages, task, Marker, true)
    ensures logger.events == old(logger.events)
              + Stamp(|old(logger.events)|, now, old(logger.Iteration(AgentName)) + 1,
                      Trace(old(memory.state.rca).Some?, FinalOutcome(agent), decode, durationMs))
    ensures agent.Raised? ==> memory.state == old(memory.state)
                              && result == Raised(agent.errorType, agent.errorMessage)
    ensures agent.Done? ==>
              var rec := ParseFix(FinalContent(agent.value), decode);
              memory.state == StoreAfter(old(memory.state), rec, now)
              && result == Done(NodeUpdate(agent.value, memory.state.fixPlan))
  {
    var hasRca := memory.GetContextForAgent("fix_agent")["rca"].Some?;
    sent := WithTask(messages, task, Marker, true);
    var rec := RunStage(logger, memory, hasRca, FinalOutcome(agent), decode, durationMs, now);
    match agent {
      case Raised(t, m) =>
        result := Raised(t, m);
      case Done(msgs) =>
        result := Done(NodeUpdate(msgs, memory.GetFixPlanDict()));
    }
  }

  /** `run_fix_agent` of the LangGraph version: runs the node on an empty conversation and
      reports whatever the store's fix-plan slot holds afterwards, which is an earlier run's
      plan when this run parsed nothing. */
  method RunFixNode(logger: MessageLogger, memory: SharedMemory, task: string,
                    agent: Outcome<seq<Message>>, decode: Decoder, durationMs: int, now: string)
    returns (result: Outcome<RunReport>)
    requires logger.Valid()
    modifies logger, memory
    ensures logger.Valid()
    ensures logger.events == old(logger.events)
              + Stamp(|old(logger.events)|, now, old(logger.Iteration(AgentName)) + 1,
                      Trace(old(memory.state.rca).Some?, FinalOutcome(agent), decode, durationMs))
    ensures agent.Raised? ==> memory.state == old(memory.state)
                              && result == Raised(agent.errorType, agent.errorMessage)
    ensures agent.Done? ==>
              var rec := ParseFix(FinalContent(agent.value), decode);
              memory.state == StoreAfter(old(memory.state), rec, now)
              && result.Done?
              && result.value.output == FinalContent(agent.value)
              && result.value.parsed == memory.state.fixPlan
              && (result.value.success <==> rec.Some? || old(memory.state.fixPlan).Some?)
  {
    var sent, update := FixNode(logger, memory, task, [], agent, decode, durationMs, now);
    match update {
      case Raised(t, m) =>
        result := Raised(t, m);
      case Done(u) =>
        var slot := memory.GetFixPlanDict();
        result := Done(RunReport(FinalContent(u.messages), slot, slot.Some?));
    }
  }

  /** `run_fix_agent` of the `clap` version: the same stage on the agent's output text; the
      report carries the plan this run parsed, with its new timestamp. */
  method RunFixAgent(logger: MessageLogger, memory: SharedMemory, agent: Outcome<string>, decode: Decoder,
                     durationMs: int, now: string)
    returns (result: Outcome<RunReport>)
    requires logger.Valid()
    modifies logger, memory
    ensures logger.Valid()
    ensures logger.events == old(logger.events)
              + Stamp(|old(logger.events)|, now, old(logger.Iteration(AgentName)) + 1,
                      Trace(old(memory.state.rca).Some?, agent, decode, durationMs))
    ensures agent.Raised? ==> memory.state == old(memory.state)
                              && result == Raised(agent.errorType, agent.errorMessage)
    ensures agent.Done? ==>
              var rec := ParseFix(agent.value, decode);
              memory.state == StoreAfter(old(memory.state), rec, now)
              && result == Done(RunReport(agent.value,
                                          if rec.Some? then Some(FixToDict(rec.value.(timestamp := JStr(now))))
                                          else None,
                                          rec.Some?))
  {
    var hasRca := memory.GetContextForAgent("fix_agent")["rca"].Some?;
    var rec := RunStage(logger, memory, hasRca, agent, decode, durationMs, now);
    var stored := Stored(rec, now);
    match agent {
      case Raised(t, m) =>
        result := Raised(t, m);
      case Done(output) =>
        result := Done(RunReport(output, stored, stored.Some?));
    }
  }
}
