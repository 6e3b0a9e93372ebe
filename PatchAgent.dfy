/** The patch-generation stage (solution/agents/patch_agent.py and its earlier `clap` version
    solution_clap_backup/agents/patch_agent.py): it hands the stored analysis and fix plan to an
    agent with file tools, reads `PatchMetadata` out of the agent's final text, stores it in the
    shared memory and logs what it did, including every tool call and tool result. */
module PatchAgent {
  import opened Wrappers
  import opened Text
  import opened Json
  import opened Records
  import opened Extraction
  import opened SharedMemory
  import opened MessageLog
  import opened StageRunner

  const AgentName := "Patch_Generation_Agent"
  const Section := "patch_metadata"
  /** Compared with the last message folded to lower case. */
  const Marker := "patch"

  const NoFixContext := "No fix plan available"
  const UnknownFile := "unknown"
  const HintPrefix := "fixed_"
  const DefaultHint := "fixed_patch.py"
  /** The exception `pathlib.Path` raises for a value that is not a path. */
  const PathError := "TypeError"

  /** The starts `str.find` tries, in order, when the regex span does not decode. */
  const Starts: seq<string> := ["{\"original_file\"", "{\n    \"original_file\""]

  /** The keys the parser reads out of a decoded object. */
  const ParsedKeys: seq<string> := ["original_file", "patched_file", "changes_made", "lines_modified"]

  /** The fix plan as the task text shows it: its JSON dump (`dumped`, not modelled) when the
      store holds a non-empty one, otherwise a note. */
  function FixContext(fix: Option<JObj>, dumped: string): string {
    if fix.Some? && fix.value != map[] then dumped else NoFixContext
  }

  /** The task text carries the dumped plan exactly when `get_fix_plan` would return a record. */
  lemma FixContextIffRecord(memory: SharedMemory, dumped: string)
    ensures FixContext(memory.GetFixPlanDict(), dumped)
            == if memory.GetFixPlan().Some? then dumped else NoFixContext
  {
  }

  /** The affected file the task names: the stored analysis's "affected_file", or "unknown"
      when there is no analysis, it is empty, or it lacks the key. */
  function AffectedFile(rca: Option<JObj>): JValue {
    if rca.Some? && rca.value != map[] then Get(rca.value, "affected_file", JStr(UnknownFile))
    else JStr(UnknownFile)
  }

  /** The name the task suggests for the patched file: "fixed_" and the final component of the
      affected file, or "fixed_patch.py" when the file is "", "unknown" or null; any other
      value that is not a string makes `pathlib.Path` raise. */
  function FilenameHint(affected: JValue): (r: Result<string, string>)
    ensures r.Err? <==> !affected.JStr? && !affected.JNull?
    ensures r.Err? ==> r.error == PathError
    ensures affected == JNull || affected == JStr("") || affected == JStr(UnknownFile) ==> r == Ok(DefaultHint)
    ensures r.Ok? ==> StartsWith(r.value, HintPrefix) && '/' !in r.value[|HintPrefix|..]
  {
    match affected
    case JNull => Ok(DefaultHint)
    case JStr(s) =>
      if s == "" || s == UnknownFile then Ok(DefaultHint)
      else
        var name := Basename(s);
        assert (HintPrefix + name)[|HintPrefix|..] == name;
        Ok(HintPrefix + name)
    case _ => Err(PathError)
  }

  /** The hint for the analysis the store holds. */
  function Hint(rca: Option<JObj>): Result<string, string> {
    FilenameHint(AffectedFile(rca))
  }

  /** An analysis stored by the RCA stage always yields a hint when its affected file is a
      string, and the hint names that file's final component unless the file is "" or
      "unknown". */
  lemma StoredAnalysisHint(r: RCAResult, s: string)
    requires r.affectedFile == JStr(s)
    ensures Hint(Some(RcaToDict(r))).Ok?
    ensures s != "" && s != UnknownFile ==> Hint(Some(RcaToDict(r))) == Ok(HintPrefix + Basename(s))
  {
    assert RcaToDict(r)["affected_file"] == JStr(s);
  }

  /** Without a stored analysis the hint is the default name. */
  lemma NoAnalysisHint()
    ensures Hint(None) == Ok(DefaultHint)
  {
  }

  /** The task info of the start event: whether the store's analysis and fix-plan slots are
      set, and the two file tools. */
  function TaskInfo(hasRca: bool, hasFixPlan: bool): JObj {
    map["task" := JStr("Generate Code Patch"),
        "context" := JObject(map["has_rca" := JBool(hasRca), "has_fix_plan" := JBool(hasFixPlan)]),
        "tools" := JList([JStr("read_file"), JStr("write_file")])]
  }

  /** The text the parser first decodes: the first tier's flat object holding "original_file",
      else the second tier's lazy object holding "changes_made" and a `]`. */
  function Span(output: string): (r: Option<(nat, nat)>)
    ensures r.Some? ==> r.value.0 < r.value.1 <= |output| && output[r.value.0] == '{'
                        && output[r.value.1 - 1] == '}'
    ensures r.None? <==> (forall p, e :: !FlatMatch(output, Quoted("original_file"), p, e))
                         && (forall p, e :: !LazyMatch(output, Quoted("changes_made"), p, e))
    ensures (exists p, e :: FlatMatch(output, Quoted("original_file"), p, e)) ==>
              r == FlatSpan(output, "original_file")
  {
    var flat := FlatSpan(output, "original_file");
    if flat.Some? then flat else LazySpan(output, "changes_made")
  }

  /** The metadata built from a decoded object: only the four keys the parser reads, each with
      its default when absent; the patch content and the timestamp stay empty whatever the
      object holds. */
  function MetadataFromObject(data: JObj): (m: PatchMetadata)
    ensures m.patchContent == EmptyText && m.timestamp == EmptyText
    ensures forall k :: k in data && k in ParsedKeys ==> PatchToDict(m)[k] == data[k]
    ensures "original_file" !in data ==> m.originalFile == EmptyText
    ensures "patched_file" !in data ==> m.patchedFile == EmptyText
    ensures "changes_made" !in data ==> m.changesMade == EmptyList
    ensures "lines_modified" !in data ==> m.linesModified == EmptyList
  {
    PatchMetadata(Get(data, "original_file", EmptyText), Get(data, "patched_file", EmptyText),
                  Get(data, "changes_made", EmptyList), Get(data, "lines_modified", EmptyList),
                  EmptyText, EmptyText)
  }

  /** Metadata comes back from its own dict, less its patch content and timestamp. */
  lemma MetadataObjectRoundTrip(m: PatchMetadata)
    ensures MetadataFromObject(PatchToDict(m)) == m.(patchContent := EmptyText, timestamp := EmptyText)
  {
    var d := PatchToDict(m);
    assert d["original_file"] == m.originalFile && d["patched_file"] == m.patchedFile;
    assert d["changes_made"] == m.changesMade && d["lines_modified"] == m.linesModified;
  }

  /** The object the parser builds its metadata from once a span `output[p..e]` was found: the
      span decoded, else the recovered object. */
  function SpanData(output: string, p: nat, e: nat, decode: Decoder): Option<JObj>
    requires p <= e <= |output|
  {
    if decode(output[p..e]).Some? then decode(output[p..e]) else Retry(output, Starts, decode)
  }

  /** `parse_patch_output`. A span that decodes gives its metadata; one that does not falls
      back on the brace scan from the first start variant, and nothing when that fails too (the
      exception is caught); without a span there is nothing. */
  function ParsePatch(output: string, decode: Decoder): (r: Option<PatchMetadata>)
    ensures Span(output).None? ==> r.None?
    ensures r.Some? ==> r.value.patchContent == EmptyText && r.value.timestamp == EmptyText
  {
    match Span(output)
    case Some((p, e)) =>
      (match SpanData(output, p, e, decode)
       case None => None
       case Some(d) => Some(MetadataFromObject(d)))
    case None => None
  }

  /** What `parse_patch_output` returns once it found a span. */
  lemma ParsePatchCases(output: string, decode: Decoder)
    requires Span(output).Some?
    ensures var (p, e) := Span(output).value;
            var r := ParsePatch(output, decode);
            (decode(output[p..e]).Some? ==> r == Some(MetadataFromObject(decode(output[p..e]).value)))
            && (decode(output[p..e]).None? ==>
                  (r.Some? <==> Retry(output, Starts, decode).Some?)
                  && (r.Some? ==> r.value == MetadataFromObject(Retry(output, Starts, decode).value)))
  {
    var (p, e) := Span(output).value;
    var data := SpanData(output, p, e, decode);
    assert ParsePatch(output, decode) == if data.Some? then Some(MetadataFromObject(data.value)) else None;
  }

  /** The parser as it runs: the regex tiers, the decode, and the scanning recovery. */
  method ParsePatchOutput(output: string, decode: Decoder) returns (r: Option<PatchMetadata>)
    ensures r == ParsePatch(output, decode)
  {
    var span := Span(output);
    if span.None? {
      return None;
    }
    var p, e := span.value.0, span.value.1;
    var data := decode(output[p..e]);
    if data.None? {
      data := RetryScan(output, Starts, decode);
    }
    assert data == SpanData(output, p, e, decode);
    r := if data.Some? then Some(MetadataFromObject(data.value)) else None;
  }

  /** An object that decodes to metadata's own dict is read back as that metadata, without its
      patch content and timestamp. */
  lemma ParseReadsBackMetadata(output: string, decode: Decoder, m: PatchMetadata)
    requires Span(output).Some?
    requires decode(output[Span(output).value.0..Span(output).value.1]) == Some(PatchToDict(m))
    ensures ParsePatch(output, decode) == Some(m.(patchContent := EmptyText, timestamp := EmptyText))
  {
    MetadataObjectRoundTrip(m);
  }

  /** When the span does not decode, a balanced object cut from the first start variant that
      decodes to metadata's dict still yields that metadata. */
  lemma RecoveryReadsBackMetadata(output: string, decode: Decoder, m: PatchMetadata, i: nat, e: nat)
    requires Span(output).Some?
    requires decode(output[Span(output).value.0..Span(output).value.1]).None?
    requires FirstStart(output, Starts).Some? && FirstStart(output, Starts).value.1 == i
    requires BraceEnd(output, i) == Some(e)
    requires decode(output[i..e]) == Some(PatchToDict(m))
    ensures ParsePatch(output, decode) == Some(m.(patchContent := EmptyText, timestamp := EmptyText))
  {
    MetadataObjectRoundTrip(m);
  }

  /** A span that does not decode, with no start variant or one whose braces never balance,
      gives no metadata. */
  lemma UndecodableSpanGivesNothing(output: string, decode: Decoder)
    requires RejectsEmpty(decode)
    requires Span(output).Some?
    requires decode(output[Span(output).value.0..Span(output).value.1]).None?
    requires FirstStart(output, Starts).None? || BraceEnd(output, FirstStart(output, Starts).value.1).None?
    ensures ParsePatch(output, decode) == None
  {
    ParsePatchCases(output, decode);
  }

  /** The state of the store after a stage that parsed `rec`. */
  function StoreAfter(s: StoreState, rec: Option<PatchMetadata>, now: string): StoreState {
    match rec
    case None => s
    case Some(m) => s.(patchMetadata := Some(PatchToDict(m.(timestamp := JStr(now)))),
                       metadata := s.metadata.(lastUpdated := now))
  }

  /** The metadata a stage parses from its agent's outcome: none when the agent raised. */
  function Parsed(agent: Outcome<string>, decode: Decoder): Option<PatchMetadata> {
    if agent.Done? then ParsePatch(agent.value, decode) else None
  }

  /** The events of one run of the stage whose agent returned the tool messages `msgs`. */
  function Trace(hasRca: bool, hasFixPlan: bool, msgs: seq<Message>, outcome: Outcome<string>, decode: Decoder,
                 durationMs: int): seq<Logged>
  {
    RunTrace(hasRca, hasFixPlan, msgs, outcome, Parsed(outcome, decode).Some?, durationMs)
  }

  /** The events of one run of the stage, given whether metadata was parsed. */
  function RunTrace(hasRca: bool, hasFixPlan: bool, msgs: seq<Message>, outcome: Outcome<string>, parsed: bool,
                    durationMs: int): seq<Logged>
  {
    StageTrace(AgentName, TaskInfo(hasRca, hasFixPlan), ToolTrace(AgentName, msgs), outcome, Section, PatchFields,
               parsed, durationMs)
  }

  /** `to_dict` lists the keys in field order, each once. */
  lemma KeysInFieldOrder(m: PatchMetadata)
    ensures Enumerates(PatchFields, PatchToDict(m).Keys)
  {
  }

  /** The dict `set_patch_metadata` stores for parsed metadata. */
  function Stored(rec: Option<PatchMetadata>, now: string): (d: Option<JObj>)
    ensures d.Some? <==> rec.Some?
    ensures d.Some? ==> Enumerates(PatchFields, d.value.Keys)
  {
    if rec.Some? then
      KeysInFieldOrder(rec.value.(timestamp := JStr(now)));
      Some(PatchToDict(rec.value.(timestamp := JStr(now))))
    else None
  }

  /** `set_patch_metadata` of parsed metadata; nothing happens when none was parsed. */
  method Store(memory: SharedMemory, rec: Option<PatchMetadata>, now: string)
    modifies memory
    ensures memory.state == StoreAfter(old(memory.state), rec, now)
    ensures memory.GetPatchMetadataDict()
            == if rec.Some? then Stored(rec, now) else old(memory.GetPatchMetadataDict())
  {
    if rec.Some? {
      var stamped := memory.SetPatchMetadata(rec.value, now);
    }
  }

  /** One run of the stage on the agent's outcome: parse it, log the run, store the result. */
  method RunStage(logger: MessageLogger, memory: SharedMemory, hasRca: bool, hasFixPlan: bool, msgs: seq<Message>,
                  outcome: Outcome<string>, decode: Decoder, durationMs: int, now: string)
    returns (rec: Option<PatchMetadata>)
    requires logger.Valid()
    modifies logger, memory
    ensures logger.Valid()
    ensures rec == Parsed(outcome, decode)
    ensures logger.events == old(logger.events)
              + Stamp(|old(logger.events)|, now, old(logger.Iteration(AgentName)) + 1,
                      RunTrace(hasRca, hasFixPlan, msgs, outcome, rec.Some?, durationMs))
    ensures memory.state == StoreAfter(old(memory.state), rec, now)
  {
    rec := Parsed(outcome, decode);
    Record(logger, memory, hasRca, hasFixPlan, msgs, outcome, rec, durationMs, now);
  }

  /** The effects of one run of the stage whose agent's outcome parsed to `rec`: log the run with the tool
      messages, store the metadata. */
  method Record(logger: MessageLogger, memory: SharedMemory, hasRca: bool, hasFixPlan: bool, msgs: seq<Message>,
                outcome: Outcome<string>, rec: Option<PatchMetadata>, durationMs: int, now: string)
    requires logger.Valid()
    modifies logger, memory
    ensures logger.Valid()
    ensures logger.events == old(logger.events)
              + Stamp(|old(logger.events)|, now, old(logger.Iteration(AgentName)) + 1,
                      RunTrace(hasRca, hasFixPlan, msgs, outcome, rec.Some?, durationMs))
    ensures memory.state == StoreAfter(old(memory.state), rec, now)
  {
    LogStage(logger, AgentName, TaskInfo(hasRca, hasFixPlan), msgs, outcome, Section,
             Stored(rec, now).GetOr(map[]), PatchFields, rec.Some?, durationMs, now);
    Store(memory, rec, now);
  }

  /** `patch_node`: logs the start with whether an analysis and a fix plan are stored, hands
      the conversation (with the task appended unless the last message mentions "patch" in any
      case) to the agent, logs and re-raises its exception, or logs every tool call and tool
      result of the returned conversation, stores and logs parsed metadata and logs the end;
      the update carries the store's patch-metadata slot. */
  method PatchNode(logger: MessageLogger, memory: SharedMemory, task: string, messages: seq<Message>,
                   agent: Outcome<seq<Message>>, decode: Decoder, durationMs: int, now: string)
    returns (sent: seq<Message>, result: Outcome<NodeUpdate>)
    requires logger.Valid()
    modifies logger, memory
    ensures logger.Valid()
    ensures sent == WithTask(messages, task, Marker, true)
    ensures logger.events == old(logger.events)
              + Stamp(|old(logger.events)|, now, old(logger.Iteration(AgentName)) + 1,
                      Trace(old(memory.state.rca).Some?, old(memory.state.fixPlan).Some?, AgentMessages(agent),
                            FinalOutcome(agent), decode, durationMs))
    ensures agent.Raised? ==> memory.state == old(memory.state)
                              && result == Raised(agent.errorType, agent.errorMessage)
    ensures agent.Done? ==>
              var rec := ParsePatch(FinalContent(agent.value), decode);
              memory.state == StoreAfter(old(memory.state), rec, now)
              && result == Done(NodeUpdate(agent.value, memory.state.patchMetadata))
  {
    var context := memory.GetContextForAgent("patch_agent");
    var hasRca, hasFixPlan := context["rca"].Some?, context["fix_plan"].Some?;
    sent := WithTask(messages, task, Marker, true);
    var rec := RunStage(logger, memory, hasRca, hasFixPlan, AgentMessages(agent), FinalOutcome(agent), decode,
                        durationMs, now);
    match agent {
      case Raised(t, m) =>
        result := Raised(t, m);
      case Done(msgs) =>
        result := Done(NodeUpdate(msgs, memory.GetPatchMetadataDict()));
    }
  }

  /** `run_patch_agent` of the LangGraph version. Building the node computes the filename hint
      first, so an affected file that is not a path raises before anything is logged (the
      exception's text, `pathError`, comes from `pathlib`); otherwise the node runs on an empty
      conversation and the report carries whatever the store's patch-metadata slot holds
      afterwards, which is an earlier run's metadata when this run parsed nothing. */
  method RunPatchNode(logger: MessageLogger, memory: SharedMemory, task: string, pathError: string,
                      agent: Outcome<seq<Message>>, decode: Decoder, durationMs: int, now: string)
    returns (result: Outcome<RunReport>)
    requires logger.Valid()
    modifies logger, memory
    ensures logger.Valid()
    ensures Hint(old(memory.state.rca)).Err? ==>
              logger.events == old(logger.events) && memory.state == old(memory.state)
              && result == Raised(PathError, pathError)
    ensures Hint(old(memory.state.rca)).Ok? ==>
              logger.events == old(logger.events)
                + Stamp(|old(logger.events)|, now, old(logger.Iteration(AgentName)) + 1,
                        Trace(old(memory.state.rca).Some?, old(memory.state.fixPlan).Some?, AgentMessages(agent),
                              FinalOutcome(agent), decode, durationMs))
    ensures Hint(old(memory.state.rca)).Ok? && agent.Raised? ==>
              memory.state == old(memory.state) && result == Raised(agent.errorType, agent.errorMessage)
    ensures Hint(old(memory.state.rca)).Ok? && agent.Done? ==>
              var rec := ParsePatch(FinalContent(agent.value), decode);
              memory.state == StoreAfter(old(memory.state), rec, now)
              && result.Done?
              && result.value.output == FinalContent(agent.value)
              && result.value.parsed == memory.state.patchMetadata
              && (result.value.success <==> rec.Some? || old(memory.state.patchMetadata).Some?)
  {
    var hint := Hint(memory.GetRcaDict());
    if hint.Err? {
      return Raised(hint.error, pathError);
    }
    var sent, update := PatchNode(logger, memory, task, [], agent, decode, durationMs, now);
    match update {
      case Raised(t, m) =>
        result := Raised(t, m);
      case Done(u) =>
        var slot := memory.GetPatchMetadataDict();
        result := Done(RunReport(FinalContent(u.messages), slot, slot.Some?));
    }
  }

  /** The outcome the `clap` version's stage sees: building the agent after the start event
      raises when the affected file is not a path, and the agent does not run then. */
  function ClapOutcome(rca: Option<JObj>, pathError: string, agent: Outcome<string>): (r: Outcome<string>)
    ensures Hint(rca).Err? ==> r == Raised(PathError, pathError)
    ensures Hint(rca).Ok? ==> r == agent
  {
    if Hint(rca).Err? then Raised(PathError, pathError) else agent
  }

  /** `run_patch_agent` of the `clap` version: logs the start, builds the agent (logging and
      re-raising the path error), runs it on its task and parses its output text; the report
      carries the metadata this run parsed, with its new timestamp. */
  method RunPatchAgent(logger: MessageLogger, memory: SharedMemory, pathError: string, agent: Outcome<string>,
                       decode: Decoder, durationMs: int, now: string)
    returns (result: Outcome<RunReport>)
    requires logger.Valid()
    modifies logger, memory
    ensures logger.Valid()
    ensures logger.events == old(logger.events)
              + Stamp(|old(logger.events)|, now, old(logger.Iteration(AgentName)) + 1,
                      Trace(old(memory.state.rca).Some?, old(memory.state.fixPlan).Some?, [],
                            ClapOutcome(old(memory.state.rca), pathError, agent), decode, durationMs))
    ensures Hint(old(memory.state.rca)).Err? ==> memory.state == old(memory.state)
                                                 && result == Raised(PathError, pathError)
    ensures Hint(old(memory.state.rca)).Ok? && agent.Raised? ==>
              memory.state == old(memory.state) && result == Raised(agent.errorType, agent.errorMessage)
    ensures Hint(old(memory.state.rca)).Ok? && agent.Done? ==>
              var rec := ParsePatch(agent.value, decode);
              memory.state == StoreAfter(old(memory.state), rec, now)
              && result == Done(RunReport(agent.value,
                                          if rec.Some? then Some(PatchToDict(rec.value.(timestamp := JStr(now))))
                                          else None,
                                          rec.Some?))
  {
    var context := memory.GetContextForAgent("patch_agent");
    var hasRca, hasFixPlan := context["rca"].Some?, context["fix_plan"].Some?;
    var outcome := ClapOutcome(memory.GetRcaDict(), pathError, agent);
    var rec := RunStage(logger, memory, hasRca, hasFixPlan, [], outcome, decode, durationMs, now);
    var stored := Stored(rec, now);
    match outcome {
      case Raised(t, m) =>
        result := Raised(t, m);
      case Done(output) =>
        result := Done(RunReport(output, stored, stored.Some?));
    }
  }
}
