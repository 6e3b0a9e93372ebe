# Bugbot core, modelled in Dafny

Bugbot is a three-stage debugging pipeline. It runs a root-cause-analysis (RCA) stage, a
fix-plan stage and a patch-generation stage, one after the other. Each stage hands a task to an
LLM agent and reads a structured record out of the agent's final free text. The record is a JSON
object found by two regular-expression tiers, optionally recovered by a brace-counting scan, or
else a degraded record built from labelled lines. Each stage stores that record in a shared
blackboard (`SharedMemory`) and logs every step in an append-only event log (`MessageLogger`).
The agents call tools that summarise an error-trace document (`parse_error_trace`) and read,
list and write files (`read_file`, `list_directory`, `write_file`).

The project models both versions of the pipeline: the LangGraph one (`solution/`) and the earlier
`clap` one (`solution_clap_backup/`), whose parsers are the same.

| file | what it holds |
|---|---|
| Wrappers.dfy | `Option` and `Result` |
| Json.dfy | JSON values, Python's `dict.get`, truthiness, `str()` and `int()` |
| Text.dfy | Python string operations: `find`, `split`/`join`, `strip`, `lower`, `replace`, `str(int)`/`int(str)`, `PurePosixPath.name` |
| FileSystem.dfy | the file system as a map from path to file or directory |
| Records.dfy | `RCAResult`, `FixPlan` and `PatchMetadata` with `to_dict`/`from_dict` |
| SharedMemory.dfy | the blackboard, as a class over its state |
| MessageLogger.dfy | the event log, as a class over its event list and counters |
| Extraction.dfy | the two regex tiers, the brace scan with its start variants, and the labelled-line regexes, each as a function with its matching predicate |
| StageRunner.dfy | what the three stages share: the task message rule, the tool-event loop, the event trace of a stage, and the end-event summary |
| RcaAgent.dfy, FixAgent.dfy, PatchAgent.dfy | the parser of each stage, its node, and both versions of its `run_*_agent` |
| AnalysisTools.dfy | `parse_error_trace` and its frame helpers |
| FileTools.dfy | `read_file`, `list_directory` and `write_file` over the file-system map, as methods of a `Disk` class |

Everything outside the program is a parameter:
- `json.loads` is a `Decoder`, a function from text to an optional object.
- The LLM agent's outcome is an `Outcome`, either its messages or text, or the exception it raised.
- Clock readings, UUIDs and `json.dumps` text are given values.

## Model

| member | source | states |
|---|---|---|
| Json.ToInt | solution/agents/rca_agent.py:51 | `int()` of an integer is itself; of `None`, a list or a dict it fails (no record) |
| Json.ToIntOfDecimalText | solution/agents/rca_agent.py:51 | `int("42")` is 42: the decimal text of every integer converts back to it |
| Json.ToIntNeedsDigits | solution/agents/rca_agent.py:51 | a string without a digit never converts, so such an `affected_line` yields no record |
| Json.ShowScalars | solution/core/message_logger.py:136 | `str()` of a string is the string, and of an integer its decimal text, which `int()` reads back |
| Text.IndexOf | solution/agents/fix_agent.py:43 | `str.find`: the first occurrence at or after the start, or -1 when there is none |
| Text.Prefix | solution/core/message_logger.py:136 | `s[:n]` keeps the first `min(n, len(s))` characters |
| Text.Split | solution/tools/file_tools.py:143 | `split("\n")` returns at least one piece |
| Text.SplitJoin | solution/tools/file_tools.py:143 | joining the split pieces with the separator gives the text back |
| Text.SplitPieces | solution/tools/file_tools.py:143-144 | a text with k separators splits into k+1 pieces, none holding the separator |
| Text.TrimStart | solution/tools/analysis_tools.py:49 | removes exactly the leading whitespace |
| Text.TrimEnd | solution/tools/analysis_tools.py:49 | removes exactly the trailing whitespace |
| Text.TrimEndAppend | solution/tools/analysis_tools.py:42-49 | after a text ending in a non-space character, only the appended part loses trailing whitespace |
| Text.TrimEndBreak | solution/tools/analysis_tools.py:48-49 | a final line break is trimmed away |
| Text.TrimEndAllSpace | solution/tools/analysis_tools.py:49 | a whitespace-only text trims to nothing |
| Text.TrimEndBlank | solution/tools/analysis_tools.py:46-49 | a line break followed by a blank body trims to nothing |
| Text.BlankIffAllSpace | solution/tools/file_tools.py:193 | `not s or not s.strip()` holds exactly when every character is whitespace |
| Text.UniversalNewlines | solution/tools/file_tools.py:131-133 | text read in text mode holds no carriage return, and a text without one reads unchanged |
| Text.UniversalNewlinesBreak | solution/tools/file_tools.py:131-133 | a "\r\n" and a lone "\r" each read as one "\n" |
| Text.Lower | solution/agents/fix_agent.py:136 | `lower()` keeps the length and folds each character |
| Text.PadLeft | solution/tools/file_tools.py:163 | `{n:4d}` pads on the left with spaces to width 4 and keeps the digits at the end |
| Text.Digits | solution/tools/file_tools.py:163 | the decimal text of a natural number is non-empty and all digits |
| Text.DigitGroup | solution/agents/rca_agent.py:51 | an `int()` digit group yields only digits, at least one |
| Text.DigitsValueOfDigits | solution/agents/rca_agent.py:51 | the digits of n read back as n |
| Text.DigitGroupOfDigits | solution/agents/rca_agent.py:51 | a plain run of digits is a digit group of itself |
| Text.StripUnspaced | solution/agents/rca_agent.py:51 | a text without surrounding whitespace is its own `strip()` |
| Text.StripNoDigit | solution/agents/rca_agent.py:51 | `strip()` introduces no digit |
| Text.SliceNoDigit | solution/agents/rca_agent.py:51 | a slice of a digit-free text is digit-free |
| Text.SignedNeedsDigit | solution/agents/rca_agent.py:51 | an integer literal that `int()` accepts holds a digit |
| Text.UnsignedDigits | solution/agents/rca_agent.py:51 | a run of digits converts to its value |
| Text.NegatedDigits | solution/agents/rca_agent.py:51 | a minus sign and digits convert to the negated value |
| Text.MinusBody | solution/agents/rca_agent.py:51 | a minus sign before a digit group converts to the negated value |
| Text.SignedDigits | solution/agents/rca_agent.py:51 | an optional minus and digits convert to the signed value |
| Text.ParseIntDecimal | solution/agents/rca_agent.py:51 | `int(str(n)) == n` for every integer n |
| Text.LastName | solution/agents/patch_agent.py:121 | the last component is one of the parts, and never "." |
| Text.Basename | solution/agents/patch_agent.py:121 | `Path(p).name` holds no separator and is never "." |
| Records.RcaToDict | solution/core/shared_memory.py:23-24 | `RCAResult.to_dict` has exactly the eight declared keys |
| Records.FixToDict | solution/core/shared_memory.py:40-41 | `FixPlan.to_dict` has exactly the five declared keys |
| Records.PatchToDict | solution/core/shared_memory.py:58-59 | `PatchMetadata.to_dict` has exactly the six declared keys |
| Records.RcaDictRoundTrip | solution/core/shared_memory.py:23-28 | `from_dict(to_dict(r)) == r` for every analysis |
| Records.FixDictRoundTrip | solution/core/shared_memory.py:40-45 | `from_dict(to_dict(f)) == f` for every fix plan |
| Records.PatchDictRoundTrip | solution/core/shared_memory.py:58-63 | `from_dict(to_dict(p)) == p` for every patch record |
| Records.RcaIgnoresUndeclared | solution/core/shared_memory.py:26-28 | `from_dict` of an analysis depends only on the declared keys; unknown keys are dropped |
| Records.RcaKeepsDeclared | solution/core/shared_memory.py:23-28 | every declared key of the input keeps its value through `from_dict` then `to_dict` |
| Records.FixIgnoresUndeclared | solution/core/shared_memory.py:43-45 | `from_dict` of a fix plan drops unknown keys |
| Records.FixKeepsDeclared | solution/core/shared_memory.py:40-45 | every declared key keeps its value through `from_dict` then `to_dict` |
| Records.PatchIgnoresUndeclared | solution/core/shared_memory.py:61-63 | `from_dict` of patch metadata drops unknown keys |
| Records.PatchKeepsDeclared | solution/core/shared_memory.py:58-63 | every declared key keeps its value through `from_dict` then `to_dict` |
| SharedMemory.StateJsonRoundTrip | solution/core/shared_memory.py:167-180 | the document `save` writes is read back by `load` as the same state |
| SharedMemory.SharedMemory.constructor | solution/core/shared_memory.py:71-82 | a fresh store has three empty slots, version "1.0" and created = updated; every getter returns `None` |
| SharedMemory.SharedMemory.SetRca | solution/core/shared_memory.py:84-94 | the record is stamped, its dict replaces the whole slot, `last_updated` is refreshed, nothing else changes; `get_rca` then returns the stamped record |
| SharedMemory.SharedMemory.SetFixPlan | solution/core/shared_memory.py:109-114 | as `SetRca`, for the fix-plan slot only |
| SharedMemory.SharedMemory.SetPatchMetadata | solution/core/shared_memory.py:129-134 | as `SetRca`, for the patch slot only |
| SharedMemory.SharedMemory.GetRca | solution/core/shared_memory.py:96-101 | `None` iff the slot is empty or holds `{}`; otherwise a record whose declared fields are the stored values |
| SharedMemory.SharedMemory.GetFixPlan | solution/core/shared_memory.py:116-121 | as `GetRca`, for the fix-plan slot |
| SharedMemory.SharedMemory.GetPatchMetadata | solution/core/shared_memory.py:136-141 | as `GetRca`, for the patch slot |
| SharedMemory.SharedMemory.GetFullState | solution/core/shared_memory.py:149-152 | the returned document reads back as exactly the store's state; being a value, it is a copy |
| SharedMemory.SharedMemory.GetContextForAgent | solution/core/shared_memory.py:154-165 | "fix_agent" sees exactly the analysis, "patch_agent" exactly the analysis and the fix plan, any other name nothing |
| SharedMemory.SharedMemory.Load | solution/core/shared_memory.py:174-180 | an existing file's state replaces the whole state; without a file nothing changes |
| SharedMemory.ContextIsUpstreamOnly | solution/core/shared_memory.py:154-165 | no stage is shown the patch slot; only the patch stage is shown the fix plan |
| MessageLog.EventTypeValueInjective | solution/core/message_logger.py:12-22 | distinct event types are logged as distinct strings |
| MessageLog.Truncated | solution/core/message_logger.py:155-156 | a text of at most the cap is kept; a longer one becomes its first cap characters plus "... [truncated]" |
| MessageLog.StartData | solution/core/message_logger.py:93-97 | the start data has exactly three keys, with the defaults "", `{}` and `[]` for missing task-info keys |
| MessageLog.EndData | solution/core/message_logger.py:106-110 | the end data has exactly three keys; a missing `success` counts as true |
| MessageLog.ToolResultData | solution/core/message_logger.py:131-139 | a falsy result is `None` and not truncated; any other is at most 2000 characters of its text, flagged iff text was lost |
| MessageLog.TruncateContent | solution/core/message_logger.py:152-156 | only a truthy `content` longer than 1000 characters changes, to its truncation; every other key is kept |
| MessageLog.ToolNames | solution/core/message_logger.py:165 | one name per tool, "unknown" when missing; a non-dict `function` entry raises |
| MessageLog.ResponseData | solution/core/message_logger.py:180-184 | the text is truncated only when longer than 1000; `has_tool_calls` iff there are tool calls |
| MessageLog.KeyList | solution/core/message_logger.py:199 | the updated keys, one entry per key, in the dict's order |
| MessageLog.ErrorData | solution/core/message_logger.py:214-218 | missing details are logged as `{}` |
| MessageLog.SystemData | solution/core/message_logger.py:226-229 | `{"message": m}` overlaid by the extra data, whose keys win |
| MessageLog.OfAgent | solution/core/message_logger.py:240 | an event is selected iff it is in the log and belongs to the agent |
| MessageLog.OfAgentInOrder | solution/core/message_logger.py:237-240 | selecting one agent's events keeps their log order |
| MessageLog.AgentsOf | solution/core/message_logger.py:250 | the agents involved are exactly the event authors other than "system" |
| MessageLog.MessageLogger.constructor | solution/core/message_logger.py:45-51 | an empty log whose session id is the given one, or else the first 8 characters of the UUID |
| MessageLog.MessageLogger.LogEvent | solution/core/message_logger.py:67-84 | appends exactly one event with the next id (ids stay 1, 2, 3, ...); without an explicit iteration it carries the agent's current one (0 if never started) and changes no counter |
| MessageLog.MessageLogger.LogAgentStart | solution/core/message_logger.py:86-99 | raises only this agent's iteration by one and stamps the start event with the new value |
| MessageLog.MessageLogger.LogAgentEnd | solution/core/message_logger.py:101-111 | appends one end event at the current iteration |
| MessageLog.MessageLogger.LogToolCall | solution/core/message_logger.py:113-139 | appends a `tool_call` event and then a `tool_result` event |
| MessageLog.MessageLogger.LogLlmRequest | solution/core/message_logger.py:141-168 | appends one event with the truncated messages, the tool names and the message count; raises before logging iff a tool's `function` is not a dict |
| MessageLog.MessageLogger.LogLlmResponse | solution/core/message_logger.py:170-185 | appends one event with the response data |
| MessageLog.MessageLogger.LogMemoryUpdate | solution/core/message_logger.py:187-201 | appends one event with the section and the dict's keys in order |
| MessageLog.MessageLogger.LogError | solution/core/message_logger.py:203-219 | appends one error event |
| MessageLog.MessageLogger.LogSystem | solution/core/message_logger.py:221-230 | appends one event of agent "system" |
| MessageLog.MessageLogger.GetFullLog | solution/core/message_logger.py:242-252 | `total_events` is the number of events, each event is its dict, and the agents involved are the authors other than "system" |
| MessageLog.EventsForAgentInLogOrder | solution/core/message_logger.py:237-240 | `get_events_for_agent` returns exactly that agent's events, with increasing ids |
| MessageLog.TruncateMessages | solution/core/message_logger.py:150-157 | the copy loop keeps one message per input, each with its content truncated |
| Extraction.FindChar | solution/agents/rca_agent.py:40 | the first `{` at or after a position, or -1 when there is none |
| Extraction.NextBrace | solution/agents/rca_agent.py:38 | the first brace character at or after a position |
| Extraction.SepEnd | solution/agents/rca_agent.py:57 | the end of a run of `[:\s]` characters |
| Extraction.LetterEnd | solution/agents/rca_agent.py:57 | the end of a run of `[A-Za-z]` characters |
| Extraction.LineEnd | solution/agents/rca_agent.py:58 | the first newline at or after a position, or the end |
| Extraction.FlatMatchEndUnique | solution/agents/rca_agent.py:38 | a flat match `\{[^{}]*"K"[^{}]*\}` can end in one place only |
| Extraction.FlatMatchEndIsFixed | solution/agents/rca_agent.py:38 | every flat match from a start has the same end |
| Extraction.FlatSpanFrom | solution/agents/rca_agent.py:38 | the leftmost flat match at or after a position, or none |
| Extraction.FlatSpan | solution/agents/rca_agent.py:38 | the first tier returns the leftmost flat match, or `None` iff there is no match |
| Extraction.LazySpan | solution/agents/rca_agent.py:40 | the second tier `\{.*?"S".*?\].*?\}` returns the leftmost and then shortest match, or `None` iff there is no match |
| Extraction.ScanFrom | solution/agents/fix_agent.py:52-59 | the first point after a position where the depth returns to zero on a `}` |
| Extraction.BraceEnd | solution/agents/fix_agent.py:50-61 | the end of the shortest balanced prefix from the start, or none when the depth never returns to zero |
| Extraction.BraceCandidate | solution/agents/fix_agent.py:61 | the scanned text is the shortest balanced prefix, or "" when the braces never balance |
| Extraction.BraceScan | solution/agents/fix_agent.py:50-61 | the counting loop stops just after the shortest balanced prefix, and stays at the start otherwise |
| Extraction.FirstStartFrom | solution/agents/fix_agent.py:43-47 | the first start variant, in order, that occurs, with its `find` index |
| Extraction.FirstStart | solution/agents/fix_agent.py:43-47 | the start variants are tried in order; none iff no variant occurs |
| Extraction.Retry | solution/agents/fix_agent.py:43-64 | no start variant gives nothing; otherwise the balanced prefix is decoded, and an unbalanced one gives nothing |
| Extraction.RetryScan | solution/agents/fix_agent.py:43-62 | the `find` calls and the counting loop compute `Retry` |
| Extraction.LastOccurrence | solution/agents/rca_agent.py:57 | the last occurrence of a needle inside a range, where the greedy letter run backtracks to |
| Extraction.TypeAt | solution/agents/rca_agent.py:57 | the error-type match at a position, greedy: no match there ends later |
| Extraction.NoTypeMatchPastEnd | solution/agents/rca_agent.py:57 | no error-type match starts past the end of the text |
| Extraction.TypeSearchFrom | solution/agents/rca_agent.py:57 | the leftmost error-type match at or after a position |
| Extraction.ErrorTypeSearch | solution/agents/rca_agent.py:57 | `None` iff nothing matches; otherwise the group of the leftmost match, the longest one at that position, which is letters ending in "Error" |
| Extraction.TypeGroupIsErrorName | solution/agents/rca_agent.py:57 | the group of any match is a name `[A-Za-z]+Error` |
| Extraction.LastNonNewline | solution/agents/rca_agent.py:58 | the last non-newline character in a range |
| Extraction.LineAt | solution/agents/rca_agent.py:58 | the labelled-line match at a position, with the group starting as late as the greedy separators allow |
| Extraction.LineSearchFrom | solution/agents/rca_agent.py:58 | the leftmost labelled-line match at or after a position |
| Extraction.LineSearch | solution/agents/rca_agent.py:58 | `None` iff nothing matches; otherwise the group of the leftmost match, started as late as the separators allow, non-empty and without a newline |
| StageRunner.FinalOutcome | solution/agents/rca_agent.py:132-166 | the stage parses the last message's text, and an executor's exception passes through unchanged |
| StageRunner.Summary | solution/agents/rca_agent.py:176 | the end-event output is the text when at most 500 characters, else its first 500 followed by "..." |
| StageRunner.WithTask | solution/agents/rca_agent.py:126-129 | the conversation is kept, with the task appended iff it is empty or its last message lacks the marker |
| StageRunner.WithTaskIdempotent | solution/agents/rca_agent.py:126-129 | when the task mentions the marker, handing the conversation over twice adds the task once |
| StageRunner.Stamp | solution/core/message_logger.py:75-84 | events appended one by one keep their entries and count |
| StageRunner.StampAt | solution/core/message_logger.py:75-84 | the i-th appended event carries id base+i+1 and the i-th entry |
| StageRunner.StampOne | solution/core/message_logger.py:75-84 | one appended event gets the next id |
| StageRunner.StampAppend | solution/core/message_logger.py:75-84 | stamping two runs one after the other equals stamping them together |
| StageRunner.StampedAppend | solution/core/message_logger.py:75-84 | events appended in two steps are the stamped concatenation |
| StageRunner.ToolMessageData | solution/agents/rca_agent.py:154-163 | a tool message's result is at most 2000 characters of its text, flagged iff text was cut off |
| StageRunner.CallEntries | solution/agents/rca_agent.py:142-151 | one `tool_call` entry per requested call, in order |
| StageRunner.CallEntriesSnoc | solution/agents/rca_agent.py:143-151 | one more call appends one more entry |
| StageRunner.ToolTraceSnoc | solution/agents/rca_agent.py:141-163 | one more message appends its calls and its tool result |
| StageRunner.ToolTraceKinds | solution/agents/rca_agent.py:141-163 | every tool event belongs to the stage's agent and is a `tool_call` or `tool_result` |
| StageRunner.LogToolCalls | solution/agents/rca_agent.py:142-151 | the inner loop appends the stamped call entries and changes no counter |
| StageRunner.LogMessageEvents | solution/agents/rca_agent.py:141-163 | the events of one message are appended in order |
| StageRunner.LogToolEvents | solution/agents/rca_agent.py:141-163 | the message loop appends the whole stamped tool trace |
| StageRunner.LogStageEnd | solution/agents/rca_agent.py:169-179 | a memory update only when a record was parsed, then the end event |
| StageRunner.StageTraceDone | solution/agents/rca_agent.py:117-179 | a returning stage logs its start, its tool events and its closing events |
| StageRunner.StageEventsDone | solution/agents/rca_agent.py:117-179 | the three appends of a returning stage yield its stamped trace |
| StageRunner.StageEventsRaised | solution/agents/rca_agent.py:117-136 | the two appends of a raising stage yield its stamped trace |
| StageRunner.LogStage | solution/agents/rca_agent.py:117-179 | the whole event sequence of a stage, at the iteration its start event set |
| StageRunner.StageTraceEnds | solution/agents/rca_agent.py:175-179 | a returning stage starts with its start event and ends with an end event whose `success` is "record parsed" and whose output is the summary |
| StageRunner.StageTraceMemoryIffParsed | solution/agents/rca_agent.py:169-172 | a returning stage logs a memory update iff a record was parsed |
| StageRunner.StageTraceEndIsLast | solution/agents/rca_agent.py:175-179 | the end event is logged once, last |
| StageRunner.StageTraceOnRaise | solution/agents/rca_agent.py:132-136 | a raising stage logs its start and an error event only: no end event and no memory update |
| RcaAgent.RcaFromObject | solution/agents/rca_agent.py:46-54 | every present declared key is copied, a present `null` too; no record iff `int()` rejects the line |
| RcaAgent.RcaObjectRoundTrip | solution/agents/rca_agent.py:46-54 | a record with an integer line is rebuilt from its own dict, less its timestamp |
| RcaAgent.Span | solution/agents/rca_agent.py:38-40 | the flat "error_type" span is tried first, and the lazy "evidence" span only when it does not match |
| RcaAgent.ParseRcaOutput | solution/agents/rca_agent.py:34-75 | a span that does not decode gives `None`; a decoded one gives its record; with no span, a degraded record iff an error-type label precedes a `[A-Za-z]+Error` word: its type is the first such group, its message the first error-message line or "", its file and function "", its line 0, with the fixed root cause and evidence |
| RcaAgent.ParseReadsBackRecord | solution/agents/rca_agent.py:42-54 | a span that decodes to a record's own dict is read back as that record |
| RcaAgent.DegradedMessage | solution/agents/rca_agent.py:58-63 | the degraded message is "" iff there is no error-message line |
| RcaAgent.KeysInFieldOrder | solution/agents/rca_agent.py:172 | the memory update lists the record's keys in field order, each once |
| RcaAgent.Stored | solution/agents/rca_agent.py:171-172 | a dict is stored iff a record was parsed |
| RcaAgent.Store | solution/agents/rca_agent.py:169-171 | `set_rca` happens only when a record was parsed |
| RcaAgent.RunStage | solution/agents/rca_agent.py:166-179 | the parse result, the stamped event trace and the new store state of one run |
| RcaAgent.Record | solution/agents/rca_agent.py:169-179 | the events and the store update of a run that parsed a given record |
| RcaAgent.RcaNode | solution/agents/rca_agent.py:113-185 | the task is appended by the marker rule; a raising executor leaves the store unchanged and re-raises; otherwise the store changes only for a parsed record, and the update carries the slot |
| RcaAgent.RunRcaNode | solution/agents/rca_agent.py:190-232 | runs the node on an empty conversation and reports the slot, so `success` holds iff this run parsed a record or an earlier one was stored; a raising executor leaves the store unchanged and re-raises |
| RcaAgent.RunRcaAgent | solution_clap_backup/agents/rca_agent.py:124-175 | the `clap` run: start, then the error event and re-raise, or the parse, store and end; the report's `parsed` is the stamped dict or `None`, and `success` iff parsed |
| FixAgent.RcaContextIffRecord | solution_clap_backup/agents/fix_agent.py:63-64 | the task shows the dumped analysis exactly when the store holds a non-empty one, else "No RCA data available" |
| FixAgent.Span | solution/agents/fix_agent.py:32-34 | the flat "description" span first, the lazy "steps" span only when it does not match |
| FixAgent.PlanFromObject | solution/agents/fix_agent.py:66-71 | present declared keys are copied; the defaults apply to absent keys only |
| FixAgent.PlanObjectRoundTrip | solution/agents/fix_agent.py:66-71 | a plan is rebuilt from its own dict, less its timestamp |
| FixAgent.ParseFix | solution/agents/fix_agent.py:28-88 | a parsed plan never carries a timestamp; it is stamped when stored |
| FixAgent.ParseFixCases | solution/agents/fix_agent.py:36-84 | a decoding span gives its plan; a span that does not decode gives the recovered plan iff the recovery decodes; with no span, a degraded plan iff a description line exists: its description is the group of the first such line, with the fixed steps, no safety notes and the fixed outcome |
| FixAgent.ParseFixOutput | solution/agents/fix_agent.py:28-88 | the parser as it runs computes `ParseFix` |
| FixAgent.ParseReadsBackPlan | solution/agents/fix_agent.py:36-71 | a span that decodes to a plan's dict is read back as that plan |
| FixAgent.RecoveryReadsBackPlan | solution/agents/fix_agent.py:41-71 | a balanced object cut from the first start variant is read back as its plan |
| FixAgent.UndecodableSpanGivesNothing | solution/agents/fix_agent.py:41-88 | with no start variant, or braces that never balance, the result is `None` and the degraded line is not consulted |
| FixAgent.TraceWithoutTools | solution/agents/fix_agent.py:115-119 | the fix agent has no tools, so its trace has no tool events |
| FixAgent.KeysInFieldOrder | solution/agents/fix_agent.py:156 | the memory update lists the plan's keys in field order |
| FixAgent.Stored | solution/agents/fix_agent.py:155-156 | a dict is stored iff a plan was parsed |
| FixAgent.Store | solution/agents/fix_agent.py:153-155 | `set_fix_plan` happens only when a plan was parsed |
| FixAgent.RunStage | solution/agents/fix_agent.py:150-163 | the parse result, the stamped event trace and the new store state of one run |
| FixAgent.Record | solution/agents/fix_agent.py:153-163 | the events and the store update of a run that parsed a given plan |
| FixAgent.FixNode | solution/agents/fix_agent.py:121-169 | the start event says whether an analysis is stored; the task is appended by the case-folded "fix plan" rule; a raising executor leaves the store unchanged and re-raises |
| FixAgent.RunFixNode | solution/agents/fix_agent.py:174-201 | runs the node on an empty conversation and reports the fix-plan slot; a raising executor leaves the store unchanged and re-raises |
| FixAgent.RunFixAgent | solution_clap_backup/agents/fix_agent.py:154-219 | the `clap` run: memory written and `success` true only when a plan was parsed; an executor error is logged and re-raised |
| PatchAgent.FixContextIffRecord | solution/agents/patch_agent.py:116 | the task shows the dumped plan exactly when the store holds a non-empty one, else "No fix plan available" |
| PatchAgent.FilenameHint | solution/agents/patch_agent.py:119-121 | "fixed_" plus the affected file's final component, or "fixed_patch.py" for "", "unknown" or `null`; any other non-string raises |
| PatchAgent.StoredAnalysisHint | solution/agents/patch_agent.py:119-121 | a stored analysis with a string file gives a hint, naming the file's final component unless it is "" or "unknown" |
| PatchAgent.NoAnalysisHint | solution/agents/patch_agent.py:119-121 | without an analysis the hint is "fixed_patch.py" |
| PatchAgent.Span | solution/agents/patch_agent.py:58-60 | the flat "original_file" span first, the lazy "changes_made" span only when it does not match |
| PatchAgent.MetadataFromObject | solution/agents/patch_agent.py:89-94 | the four parsed keys are copied with defaults for absent keys; the patch content and timestamp stay "" |
| PatchAgent.MetadataObjectRoundTrip | solution/agents/patch_agent.py:89-94 | metadata is rebuilt from its own dict, less its content and timestamp |
| PatchAgent.ParsePatch | solution/agents/patch_agent.py:96 | with no span the result is `None`: there is no degraded record |
| PatchAgent.ParsePatchCases | solution/agents/patch_agent.py:62-94 | a decoding span gives its metadata; a span that does not decode gives the recovered metadata iff the recovery decodes |
| PatchAgent.ParsePatchOutput | solution/agents/patch_agent.py:46-100 | the parser as it runs computes `ParsePatch` |
| PatchAgent.ParseReadsBackMetadata | solution/agents/patch_agent.py:62-94 | a span that decodes to metadata's dict is read back as that metadata |
| PatchAgent.RecoveryReadsBackMetadata | solution/agents/patch_agent.py:64-94 | a balanced object cut from the first of the two start variants is read back as its metadata |
| PatchAgent.UndecodableSpanGivesNothing | solution/agents/patch_agent.py:64-100 | with no start variant, or braces that never balance, the result is `None` |
| PatchAgent.KeysInFieldOrder | solution/agents/patch_agent.py:209 | the memory update lists the metadata's keys in field order |
| PatchAgent.Stored | solution/agents/patch_agent.py:208-209 | a dict is stored iff metadata was parsed |
| PatchAgent.Store | solution/agents/patch_agent.py:206-208 | `set_patch_metadata` happens only when metadata was parsed |
| PatchAgent.RunStage | solution/agents/patch_agent.py:178-216 | the parse result, the stamped event trace with the tool events, and the new store state of one run |
| PatchAgent.Record | solution/agents/patch_agent.py:178-216 | the events and the store update of a run that parsed given metadata |
| PatchAgent.PatchNode | solution/agents/patch_agent.py:146-222 | the start event says which upstream records are stored; the task is appended by the case-folded "patch" rule; every tool call and result is logged; a raising executor leaves the store unchanged and re-raises |
| PatchAgent.RunPatchNode | solution/agents/patch_agent.py:227-269 | a non-path affected file raises before anything is logged; otherwise the node runs and the report carries the slot, and a raising executor leaves the store unchanged and re-raises |
| PatchAgent.ClapOutcome | solution_clap_backup/agents/patch_agent.py:193-195 | building the agent raises the path error when the hint fails; otherwise the agent's outcome is seen |
| PatchAgent.RunPatchAgent | solution_clap_backup/agents/patch_agent.py:162-230 | the `clap` run: the start event, then the error event and re-raise, or the parse, store and end, with `success` iff parsed |
| AnalysisTools.ExtractFrames | solution/tools/analysis_tools.py:16-22 | the decoded list of frames, and `[]` iff the details are not text, do not decode or are not a list |
| AnalysisTools.Kept | solution/tools/analysis_tools.py:25-32 | the filter keeps no more frames than it is given |
| AnalysisTools.FilterInternal | solution/tools/analysis_tools.py:25-32 | the loop computes the internal frames, and fails when a frame is not an object |
| AnalysisTools.KeptMembers | solution/tools/analysis_tools.py:28-31 | a frame is kept iff its external flag is "false" or `False`; a missing flag counts as external |
| AnalysisTools.KeptAppend | solution/tools/analysis_tools.py:25-32 | filtering keeps the frames' order |
| AnalysisTools.FrameStart | solution/tools/analysis_tools.py:42-49 | stripping removes only the leading line break of the frame text |
| AnalysisTools.StripFrame | solution/tools/analysis_tools.py:42-49 | the stripped text is the header followed by the body without its trailing whitespace |
| AnalysisTools.FormatFrameShape | solution/tools/analysis_tools.py:35-49 | a formatted frame is its header, with the defaults for missing keys, then its trimmed body |
| AnalysisTools.BlankBodyFrame | solution/tools/analysis_tools.py:35-49 | a frame without a function body formats as its header alone |
| AnalysisTools.Formatted | solution/tools/analysis_tools.py:124-127 | one formatted text per internal frame |
| AnalysisTools.FrameBlocks | solution/tools/analysis_tools.py:124-127 | the `enumerate` loop appends a numbered title and a text per frame |
| AnalysisTools.FramePartsStep | solution/tools/analysis_tools.py:125-127 | one more frame appends its title and its text |
| AnalysisTools.FramesNumbered | solution/tools/analysis_tools.py:124-127 | frame k is shown under "--- Frame k+1 ---" and followed by its text |
| AnalysisTools.AssembledInOrder | solution/tools/analysis_tools.py:132-166 | appending the closing groups one at a time gives the closing parts |
| AnalysisTools.AssembleReport | solution/tools/analysis_tools.py:109-168 | the output parts: the fixed header, the frames or the notice, the primary location only with internal frames, the stack and the summary |
| AnalysisTools.ClosingLayout | solution/tools/analysis_tools.py:132-166 | the stack trace cut to 2000 characters plus the marker iff longer; the counts of all and internal frames; the primary location iff there is an internal frame |
| AnalysisTools.Summary | solution/tools/analysis_tools.py:95-106 | the values are read iff the document and its attributes are objects, the frames are objects and the stack trace is text; the internal frames are the filtered ones |
| AnalysisTools.ParseErrorTrace | solution/tools/analysis_tools.py:53-175 | the steps in order: path fallback, missing file, load, list to first element, empty list, summary, assembly |
| AnalysisTools.ReportOf | solution/tools/analysis_tools.py:89-175 | the report of a loaded document, or the error text of the failing step |
| AnalysisTools.AllExternalFrames | solution/tools/analysis_tools.py:124-166 | when every frame is a library frame: the notice, no primary location and a count of 0 |
| FileTools.ReplaceAllAbsent | solution/tools/file_tools.py:71 | `replace` leaves a text without the pattern unchanged |
| FileTools.ContainerPathIsLocal | solution/tools/file_tools.py:69-72 | a container path with one root prefix becomes the relative rest |
| FileTools.ReplaceAllLeftmost | solution/tools/file_tools.py:71 | `replace` keeps the text before the leftmost occurrence, puts the replacement in its place and goes on replacing in the rest |
| FileTools.LocalPathRemovesEvery | solution/tools/file_tools.py:69-72 | a container path that names the root again loses every occurrence, not only the leading prefix |
| FileTools.DirectoryCandidates | solution/tools/file_tools.py:255-263 | an absolute path alone; a relative one under codebase/app, under the codebase, then as given |
| FileTools.FileCandidates | solution/tools/file_tools.py:78-92 | an absolute path alone; a relative one is tried as codebase/app/p, codebase/p, then p, with codebase/app/p once more in front for the application packages |
| FileTools.FirstFound | solution/tools/file_tools.py:94-101 | the first accepted candidate, `None` iff none is accepted |
| FileTools.FindCandidate | solution/tools/file_tools.py:94-101 | the search loop computes `FirstFound` |
| FileTools.LastIndex | solution/tools/file_tools.py:119 | the last index holding a character, or -1 |
| FileTools.Suffix | solution/tools/file_tools.py:119 | `Path.suffix` is "" or a dot and at least one more character, with no further dot |
| FileTools.LineWindow | solution/tools/file_tools.py:147-160 | the window starts at the requested line clamped to the file, ends at the requested end clamped to the file, shows at most 800 lines, and carries the truncation note iff the clamped window is longer than 800 lines |
| FileTools.WholeFileWindow | solution/tools/file_tools.py:147-160 | without a range a file of at most 800 lines is shown whole, and a longer one as its first 800 lines, flagged truncated |
| FileTools.RequestedWindow | solution/tools/file_tools.py:147-160 | a range inside the file of at most 800 lines is shown exactly |
| FileTools.WindowPastEnd | solution/tools/file_tools.py:147-160 | a range past the end shows nothing; one overlapping the end is cut at the end |
| FileTools.Numbered | solution/tools/file_tools.py:162-163 | one numbered line per line of the window |
| FileTools.NumberedShowsLines | solution/tools/file_tools.py:162-163 | the i-th shown line carries its 1-based original number, padded to width 4, and its text |
| FileTools.RangeError | solution/tools/file_tools.py:123-128 | no error iff every given bound is at least 1 and, when both are given, start <= end |
| FileTools.ReadCheck | solution/tools/file_tools.py:94-128 | the read passes iff a candidate is found, is a file, has at most 1000000 characters, has an allowed extension and valid bounds |
| FileTools.Items | solution/tools/file_tools.py:278-288 | the listing has no more lines than there are entries |
| FileTools.ItemsCountVisible | solution/tools/file_tools.py:280-288 | the listing has exactly one line per entry whose name does not start with "." |
| FileTools.ListItems | solution/tools/file_tools.py:278-288 | the listing loop computes `Items` |
| FileTools.BackupName | solution/tools/file_tools.py:211 | the backup name extends the file name |
| FileTools.BackupIsAnotherPath | solution/tools/file_tools.py:208-213 | the backup never overwrites the target path |
| FileTools.WriteKeepsPrevious | solution/tools/file_tools.py:208-217 | after a write the target holds the new content and the backup holds what the target held |
| FileTools.WriteTouchesOnlyOutputs | solution/tools/file_tools.py:202-217 | a write changes only the target and its backup |
| FileTools.RefusedWriteChangesNothing | solution/tools/file_tools.py:193-199 | blank content or an empty file name changes nothing and reports an error |
| FileTools.Disk.ReadFile | solution/tools/file_tools.py:51-172 | `read_file` returns its report over the tree |
| FileTools.Disk.ListDirectory | solution/tools/file_tools.py:231-301 | `list_directory` returns its report over the tree |
| FileTools.Disk.WriteFile | solution/tools/file_tools.py:175-228 | `write_file` changes the tree as `AfterWrite` says and reports as `WriteReport` says |

## Left out

- Floating-point JSON numbers are left out: `JValue` has integers, strings, booleans, null, lists and objects only.
- Dict key order is not modelled, because objects are maps. `log_memory_update` therefore takes the key order as a parameter, and `str()` of a non-empty dict is approximated.
- `json.loads` and `json.dumps` are given functions and texts; the JSON grammar itself is not modelled.
- Whitespace and case folding cover ASCII only.
- Each logger call takes one clock reading (`now`), used for the event it appends.
- One clock reading stands for every `datetime.utcnow()` read inside one store call and inside one stage: the store constructor's `created_at` and `last_updated`, a setter's record stamp and its `last_updated`, and the timestamps of all events a stage logs are one value here. The model therefore states that these timestamps are equal, which Python does not guarantee; only their order of reading is the source's.
- StageRunner.WithTask: the marker is searched in the last message's content, where the source searches `str()` of the whole message object, which also shows its name, tool calls and metadata; a marker that appears only in those fields is not seen here. Message content is always text here, whereas a LangChain content list would be shown as its `repr`.
- Json.Render: `str()` of a list shows a nested string as `'` + s + `'`, without Python's `repr` escaping and without its switch to double quotes for a string that holds a single quote; a non-empty dict is shown as `{...}`.
- `Path.resolve`, symbolic links and `..` components are not modelled: a path names an entry exactly when it is a key of the file-system map.
- FileSystem.Size: a file's size is its number of characters, whereas `st_size` counts bytes; this affects every reported size.
- FileTools.Disk.ReadFile: counts the file size in characters, not bytes, and does not model `UnicodeDecodeError` or the latin-1 fallback.
- FileTools.Disk.ReadFile: omits the "File does not exist" branch; a candidate that was just found to exist always exists here.
- FileTools.Disk.ListDirectory: the item sizes count characters, where the source shows `st_size` bytes.
- FileTools.Disk.WriteFile: the "Size: N bytes" of its reply counts characters, where the source shows `st_size` bytes.
- FileTools.Disk.ListDirectory: `sorted(iterdir())` is given as the `listing` parameter, which must list the directory's entries.
- FileTools.Disk.WriteFile: assumes the output directory exists (the `mkdir` is not modelled); the `PermissionError` branches of all three tools are left out.
- FileTools.ReadCheck: the allowed-types text of the error message is the `shownTypes` parameter, because the order of a Python set is not modelled.
- SharedMemory.SharedMemory.SetRca: the caller's record is stamped in place in Python; here the stamped record is returned instead (the same holds for the other two setters).
- SharedMemory.SharedMemory.Load: takes a document already in the store's shape; reading the file and a malformed document are left out. `save` is file output and is not modelled beyond its document (`StateToJson`).
- The locks of both stores only serialise access and are not modelled.
- Exception texts (of `pathlib`, the agent, or a failing trace step) are parameters; only their types and where they are raised are modelled.
- AnalysisTools.Summary: a stack trace that is not text is a fault; in Python 3.12 and later a dict-valued stack trace fails through the `KeyError` branch instead, which here is one of the `raised` texts.
- The executor (`create_react_agent` or `clap.Agent`) is opaque: its outcome is a parameter. Prompt texts, including the task text, are parameters.
- The stage methods compute the parse with the specification functions rather than by calling the parser methods; the parser methods are proved equal to them.
- The RCA parser has no loop, so it is modelled as a function only.
- `solution/main.py` and `solution_clap_backup/main.py` (orchestration and console output) are not part of this model.
- `llm_provider.py` and both `config.py` files are not part of this model; the two constants used from config (the size limit and the allowed extensions) are copied.
- `terminal_tools.py` (subprocess execution) is not part of this model.
