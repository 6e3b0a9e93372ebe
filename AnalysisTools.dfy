/** The error-trace tool of the analysis stage (`parse_error_trace`): it reads an APM trace
    document, picks out the exception's type, message, language and stack frames, separates the
    application's own frames from library frames, and lays out a fixed-format text report. */
module AnalysisTools {
  import opened Wrappers
  import opened Text
  import opened Json
  import opened MessageLog
  import opened FileSystem

  /** `json.loads` / `json.load` over any JSON text: the decoded value, or the text of the
      `JSONDecodeError` it raises. */
  type Loader = string -> Result<JValue, string>

  /** Why `parse_error_trace` ends in its catch-all handler; the text Python puts after
      "Error parsing trace file: " (the exception's type name and message) is a parameter. */
  datatype Fault =
    | NotAFile          // the resolved path is a directory, so `open` fails
    | NotAnObject       // the document or its `event_attributes` has no `.get`
    | FrameNotAnObject  // a stack frame has no `.get`
    | StacktraceNotText // `exception.stacktrace` cannot be sliced and extended as text

  const StackCap: nat := 2000
  const ExternalKey := "exception.is_file_external"

  // ---------------------------------------------------------------------------------------
  // Stack frames
  // ---------------------------------------------------------------------------------------

  /** `_extract_stack_frames`: the decoded list of frames; anything that is not a string, does
      not decode, or does not decode to a list gives no frames. */
  function ExtractFrames(details: JValue, load: Loader): (frames: seq<JValue>)
    ensures frames != [] <==>
              details.JStr? && load(details.s).Ok? && load(details.s).value.JList?
              && load(details.s).value.items != []
    ensures frames != [] ==> frames == load(details.s).value.items
  {
    if details.JStr? then
      match load(details.s)
      case Ok(JList(items)) => items
      case _ => []
    else []
  }

  /** A frame belongs to the application when `exception.is_file_external` (default "true")
      is the string "false" or the boolean `False`. */
  predicate IsInternal(frame: JObj) {
    var external := Get(frame, ExternalKey, JStr("true"));
    external == JStr("false") || external == JBool(false)
  }

  predicate AllObjects(frames: seq<JValue>) {
    forall k :: 0 <= k < |frames| ==> frames[k].JObject?
  }

  /** The internal frames among `frames`, in their original order. */
  function Kept(frames: seq<JValue>): (internal: seq<JObj>)
    requires AllObjects(frames)
    ensures |internal| <= |frames|
  {
    if frames == [] then []
    else
      var last := frames[|frames| - 1].fields;
      Kept(frames[..|frames| - 1]) + (if IsInternal(last) then [last] else [])
  }

  /** `_filter_internal_frames` as a value: the internal frames, or `None` when some frame is
      not an object and the `.get` call raises. */
  function InternalFrames(frames: seq<JValue>): Option<seq<JObj>> {
    if AllObjects(frames) then Some(Kept(frames)) else None
  }

  /** `_filter_internal_frames`: one pass over the frames, appending each internal one. */
  method FilterInternal(frames: seq<JValue>) returns (r: Option<seq<JObj>>)
    ensures r == InternalFrames(frames)
  {
    var internal: seq<JObj> := [];
    var i := 0;
    while i < |frames|
      invariant 0 <= i <= |frames|
      invariant AllObjects(frames[..i]) && internal == Kept(frames[..i])
    {
      if !frames[i].JObject? {
        return None;
      }
      var frame := frames[i].fields;
      if IsInternal(frame) {
        internal := internal + [frame];
      }
      assert frames[..i + 1][..i] == frames[..i];
      i := i + 1;
    }
    assert frames[..i] == frames;
    return Some(internal);
  }

  /** The filter keeps exactly the internal frames: a frame is kept if and only if it occurs
      among the input frames and is internal. */
  lemma {:induction false} KeptMembers(frames: seq<JValue>, f: JObj)
    requires AllObjects(frames)
    ensures f in Kept(frames) <==> JObject(f) in frames && IsInternal(f)
    decreases |frames|
  {
    if frames != [] {
      var init := frames[..|frames| - 1];
      assert frames == init + [frames[|frames| - 1]];
      KeptMembers(init, f);
    }
  }

  /** The filter keeps the frames' order: filtering two runs of frames one after the other is
      filtering their concatenation. */
  lemma {:induction false} KeptAppend(a: seq<JValue>, b: seq<JValue>)
    requires AllObjects(a) && AllObjects(b)
    ensures AllObjects(a + b)
    ensures Kept(a + b) == Kept(a) + Kept(b)
    decreases |b|
  {
    if b == [] {
      assert a + b == a;
    } else {
      var init := b[..|b| - 1];
      assert (a + b)[..|a + b| - 1] == a + init;
      KeptAppend(a, init);
    }
  }

  // ---------------------------------------------------------------------------------------
  // One frame as text
  // ---------------------------------------------------------------------------------------

  /** The first lines of a formatted frame, with the defaults for missing keys. */
  function FrameHeader(frame: JObj): string {
    "File: " + Show(Get(frame, "exception.file", JStr("unknown")))
    + "\nLine: " + Show(Get(frame, "exception.line", JStr("?")))
    + "\nFunction: " + Show(Get(frame, "exception.function_name", JStr("unknown")))
    + "\nCode:"
  }

  function FrameBody(frame: JObj): string {
    Show(Get(frame, "exception.function_body", JStr("")))
  }

  lemma FrameStart(h: string, b: string)
    requires h != [] && h[0] == 'F'
    ensures TrimStart("\n" + h + "\n" + b + "\n") == h + ("\n" + b + "\n")
  {
    var s := "\n" + h + "\n" + b + "\n";
    assert s[1..] == h + ("\n" + b + "\n");
  }

  lemma StripFrame(h: string, b: string)
    requires h != [] && h[0] == 'F' && h[|h| - 1] == ':'
    ensures Strip("\n" + h + "\n" + b + "\n") == h + TrimEnd("\n" + b)
  {
    FrameStart(h, b);
    TrimEndAppend(h, "\n" + b + "\n");
    TrimEndBreak("\n" + b);
  }

  /** `_format_frame`: the frame's lines, stripped of surrounding whitespace. */
  function FormatFrame(frame: JObj): string {
    Strip("\n" + FrameHeader(frame) + "\n" + FrameBody(frame) + "\n")
  }

  /** The stripped text block keeps the whole header and drops only the leading newline and
      the whitespace at the end of the function body. */
  lemma FormatFrameShape(frame: JObj)
    ensures FormatFrame(frame) == FrameHeader(frame) + TrimEnd("\n" + FrameBody(frame))
  {
    var h := FrameHeader(frame);
    assert h[0] == 'F' && h[|h| - 1] == ':';
    StripFrame(h, FrameBody(frame));
  }

  /** A frame without a function body formats as its header alone. */
  lemma BlankBodyFrame(frame: JObj)
    requires IsBlank(FrameBody(frame))
    ensures FormatFrame(frame) == FrameHeader(frame)
  {
    FormatFrameShape(frame);
    TrimEndBlank(FrameBody(frame));
  }

  // ---------------------------------------------------------------------------------------
  // The report
  // ---------------------------------------------------------------------------------------

  /** The values of the trace that the report shows, read with their defaults. */
  datatype TraceSummary = TraceSummary(
    errorType: JValue,
    message: JValue,
    language: JValue,
    eventName: JValue,
    stacktrace: string,
    frames: seq<JValue>,
    internal: seq<JObj>)

  const Rule60 := "============================================================"
  const Rule40 := "----------------------------------------"
  const NoInternalFrames := "No internal frames found (error may be in library code)"

  function HeaderParts(t: TraceSummary): seq<string> {
    [Rule60, "ERROR TRACE ANALYSIS", Rule60, "",
     "Error Type: " + Show(t.errorType),
     "Error Message: " + Show(t.message),
     "Language: " + Show(t.language),
     "Event: " + Show(t.eventName),
     "",
     Rule40, "INTERNAL APPLICATION FRAMES (Your Code):", Rule40]
  }

  function FrameTitle(n: nat): string {
    "\n--- Frame " + Decimal(n) + " ---"
  }

  /** The formatted text of each frame. */
  function Formatted(internal: seq<JObj>): (texts: seq<string>)
    ensures |texts| == |internal|
  {
    seq(|internal|, k requires 0 <= k < |internal| => FormatFrame(internal[k]))
  }

  /** The numbered frame blocks, one title and one text per frame, in order. */
  function FrameParts(texts: seq<string>): seq<string> {
    if texts == [] then []
    else FrameParts(texts[..|texts| - 1]) + [FrameTitle(|texts|), texts[|texts| - 1]]
  }

  function PrimaryParts(primary: JObj): seq<string> {
    ["", Rule40, "PRIMARY ERROR LOCATION:", Rule40,
     "File: " + Show(Get(primary, "exception.file", JStr("unknown"))),
     "Line: " + Show(Get(primary, "exception.line", JStr("unknown"))),
     "Function: " + Show(Get(primary, "exception.function_name", JStr("unknown")))]
  }

  function StackParts(stacktrace: string): seq<string> {
    ["", Rule40, "FULL STACKTRACE:", Rule40, Truncated(stacktrace, StackCap)]
  }

  function CountLine(n: nat): string {
    "- Internal (app) frames: " + Decimal(n)
  }

  function SummaryParts(t: TraceSummary): seq<string> {
    ["", Rule60, "SUMMARY FOR RCA:", Rule60,
     "- Error: " + Show(t.errorType) + ": " + Show(t.message),
     "- Total stack frames: " + Decimal(|t.frames|),
     CountLine(|t.internal|)]
  }

  function Location(primary: JObj): string {
    "- Primary location: " + Show(Get(primary, "exception.file", JStr("unknown")))
    + ":" + Show(Get(primary, "exception.line", JStr("?")))
  }

  /** The frame blocks, or the notice that there is no internal frame. */
  function FrameSection(internal: seq<JObj>): seq<string> {
    if internal == [] then [NoInternalFrames] else FrameParts(Formatted(internal))
  }

  /** Everything after the frame blocks: the primary location when there is an internal frame,
      the stack trace, the summary, and the primary location's summary line. */
  function ClosingParts(t: TraceSummary): seq<string> {
    if t.internal == [] then StackParts(t.stacktrace) + SummaryParts(t)
    else
      PrimaryParts(t.internal[0]) + StackParts(t.stacktrace) + SummaryParts(t)
      + [Location(t.internal[0])]
  }

  /** The lines of the report, before they are joined with newlines. */
  function ReportParts(t: TraceSummary): seq<string> {
    HeaderParts(t) + FrameSection(t.internal) + ClosingParts(t)
  }

  /** The output assembly of `parse_error_trace`: the fixed header, one block per internal
      frame (or the "no internal frames" line), the primary location, the stack trace and the
      summary, appended part by part. */
  method AssembleReport(t: TraceSummary) returns (parts: seq<string>)
    ensures parts == ReportParts(t)
  {
    parts := HeaderParts(t);
    if t.internal == [] {
      parts := parts + [NoInternalFrames];
    } else {
      var blocks := FrameBlocks(t.internal);
      parts := parts + blocks;
      parts := parts + PrimaryParts(t.internal[0]);
    }
    parts := parts + StackParts(t.stacktrace);
    parts := parts + SummaryParts(t);
    if t.internal != [] {
      parts := parts + [Location(t.internal[0])];
    }
    AssembledInOrder(t, HeaderParts(t), FrameSection(t.internal));
  }

  /** The `enumerate` loop of `parse_error_trace`: a title and a formatted block per frame. */
  method FrameBlocks(internal: seq<JObj>) returns (blocks: seq<string>)
    ensures blocks == FrameParts(Formatted(internal))
  {
    var texts := Formatted(internal);
    blocks := [];
    var i := 0;
    while i < |internal|
      invariant 0 <= i <= |internal|
      invariant blocks == FrameParts(texts[..i])
    {
      FramePartsStep(texts, i);
      blocks := blocks + [FrameTitle(i + 1), FormatFrame(internal[i])];
      i := i + 1;
    }
    assert texts[..i] == texts;
  }

  /** Appending the closing parts one group at a time gives `ClosingParts`. */
  lemma AssembledInOrder(t: TraceSummary, h: seq<string>, f: seq<string>)
    ensures t.internal == [] ==>
              h + f + StackParts(t.stacktrace) + SummaryParts(t) == h + f + ClosingParts(t)
    ensures t.internal != [] ==>
              h + f + PrimaryParts(t.internal[0]) + StackParts(t.stacktrace) + SummaryParts(t)
              + [Location(t.internal[0])] == h + f + ClosingParts(t)
  {
  }

  /** Showing one more frame appends its title and its text. */
  lemma FramePartsStep(texts: seq<string>, i: nat)
    requires i < |texts|
    ensures FrameParts(texts[..i + 1]) == FrameParts(texts[..i]) + [FrameTitle(i + 1), texts[i]]
  {
    assert texts[..i + 1][..i] == texts[..i];
  }

  /** Frame `k` (counting from 0) is shown under the title "Frame k+1", directly followed by
      its text. */
  lemma {:induction false} FramesNumbered(texts: seq<string>)
    ensures |FrameParts(texts)| == 2 * |texts|
    ensures forall k :: 0 <= k < |texts| ==>
              FrameParts(texts)[2 * k] == FrameTitle(k + 1)
              && FrameParts(texts)[2 * k + 1] == texts[k]
    decreases |texts|
  {
    if texts != [] {
      var init := texts[..|texts| - 1];
      FramesNumbered(init);
      forall k | 0 <= k < |texts|
        ensures FrameParts(texts)[2 * k] == FrameTitle(k + 1)
        ensures FrameParts(texts)[2 * k + 1] == texts[k]
      {
        if k < |init| {
          assert texts[k] == init[k];
        }
      }
    }
  }

  /** The closing parts: the stack trace cut to 2000 characters, the counts of all and of the
      internal frames and, when there is an internal frame, the primary location last. */
  lemma ClosingLayout(t: TraceSummary)
    ensures var c := ClosingParts(t);
      t.internal == [] ==>
        |c| == 12 && c[4] == Truncated(t.stacktrace, StackCap)
        && c[10] == "- Total stack frames: " + Decimal(|t.frames|) && c[11] == CountLine(0)
    ensures var c := ClosingParts(t); var n := |t.internal|;
      t.internal != [] ==>
        |c| == 20 && c[11] == Truncated(t.stacktrace, StackCap)
        && c[17] == "- Total stack frames: " + Decimal(|t.frames|) && c[18] == CountLine(n)
        && c[19] == Location(t.internal[0])
  {
  }

  // ---------------------------------------------------------------------------------------
  // From the file to the report
  // ---------------------------------------------------------------------------------------

  /** The trace file to read: a relative path that does not exist falls back to the
      configured trace file. */
  function ResolvedPath(tracePath: string, files: Tree, defaultPath: string): string {
    if !IsAbsolute(tracePath) && tracePath !in files then defaultPath else tracePath
  }

  /** The document and its `event_attributes` are objects, every stack frame is an object and
      the stack trace is text: the conditions under which the report is produced. */
  predicate Readable(data: JValue, load: Loader) {
    data.JObject?
    && Get(data.fields, "event_attributes", JObject(map[])).JObject?
    && AllObjects(ExtractFrames(Get(Attributes(data), "exception.stack_details", JStr("[]")), load))
    && Get(Attributes(data), "exception.stacktrace", JStr("")).JStr?
  }

  function Attributes(data: JValue): JObj
    requires data.JObject?
  {
    match Get(data.fields, "event_attributes", JObject(map[]))
    case JObject(a) => a
    case _ => map[]
  }

  /** The values the report shows, read from the trace document with their defaults. */
  function Summary(data: JValue, load: Loader): (r: Result<TraceSummary, Fault>)
    ensures r.Ok? <==> Readable(data, load)
    ensures r.Ok? ==> InternalFrames(r.value.frames) == Some(r.value.internal)
  {
    if !data.JObject? then Err(NotAnObject)
    else
      var attrs := Get(data.fields, "event_attributes", JObject(map[]));
      if !attrs.JObject? then Err(NotAnObject)
      else
        var a := attrs.fields;
        var frames := ExtractFrames(Get(a, "exception.stack_details", JStr("[]")), load);
        match InternalFrames(frames)
        case None => Err(FrameNotAnObject)
        case Some(internal) =>
          var stack := Get(a, "exception.stacktrace", JStr(""));
          if !stack.JStr? then Err(StacktraceNotText)
          else
            Ok(TraceSummary(
                 Get(a, "exception.type", JStr("Unknown")),
                 Get(a, "exception.message", JStr("No message")),
                 Get(a, "exception.language", JStr("unknown")),
                 Get(data.fields, "event_name", JStr("unknown")),
                 stack.s, frames, internal))
  }

  function Failure(detail: string): string {
    "Error parsing trace file: " + detail
  }

  const EmptyArray := "Error: Trace file contains empty array"

  /** The report for a decoded trace document: a list stands for its first element. */
  function DocumentReport(doc: JValue, load: Loader, raised: Fault -> string): string {
    if doc.JList? && doc.items == [] then EmptyArray
    else
      var data := if doc.JList? then doc.items[0] else doc;
      match Summary(data, load)
      case Err(fault) => Failure(raised(fault))
      case Ok(t) => Join(ReportParts(t), "\n")
  }

  /** `parse_error_trace` as a value. `files` is the file system, `defaultPath` the configured
      trace file, `load` the JSON decoder and `raised` the text of the exception behind each
      fault. */
  function TraceReport(tracePath: string, files: Tree, defaultPath: string, load: Loader,
                       raised: Fault -> string): string
  {
    var path := ResolvedPath(tracePath, files, defaultPath);
    if path !in files then "Error: Trace file not found at " + path
    else if files[path].Directory? then Failure(raised(NotAFile))
    else
      match load(files[path].content)
      case Err(e) => "Error: Invalid JSON in trace file: " + e
      case Ok(doc) => DocumentReport(doc, load, raised)
  }

  /** `parse_error_trace`: the steps in the source's order, with the frame filter and the
      report assembly done by the loops above. */
  method ParseErrorTrace(tracePath: string, files: Tree, defaultPath: string, load: Loader,
                         raised: Fault -> string) returns (r: string)
    ensures r == TraceReport(tracePath, files, defaultPath, load, raised)
  {
    var path := ResolvedPath(tracePath, files, defaultPath);
    if path !in files {
      return "Error: Trace file not found at " + path;
    }
    if files[path].Directory? {
      return Failure(raised(NotAFile));
    }
    var loaded := load(files[path].content);
    if loaded.Err? {
      return "Error: Invalid JSON in trace file: " + loaded.error;
    }
    var doc := loaded.value;
    if doc.JList? && doc.items == [] {
      return EmptyArray;
    }
    var data := if doc.JList? then doc.items[0] else doc;
    r := ReportOf(data, load, raised);
  }

  /** The part of `parse_error_trace` after the document has been loaded. */
  method ReportOf(data: JValue, load: Loader, raised: Fault -> string) returns (r: string)
    ensures r == match Summary(data, load)
                 case Err(fault) => Failure(raised(fault))
                 case Ok(t) => Join(ReportParts(t), "\n")
  {
    if !data.JObject? {
      return Failure(raised(NotAnObject));
    }
    var attrs := Get(data.fields, "event_attributes", JObject(map[]));
    if !attrs.JObject? {
      return Failure(raised(NotAnObject));
    }
    var a := attrs.fields;
    var frames := ExtractFrames(Get(a, "exception.stack_details", JStr("[]")), load);
    var internal := FilterInternal(frames);
    if internal.None? {
      return Failure(raised(FrameNotAnObject));
    }
    var stack := Get(a, "exception.stacktrace", JStr(""));
    if !stack.JStr? {
      return Failure(raised(StacktraceNotText));
    }
    var t := TraceSummary(
      Get(a, "exception.type", JStr("Unknown")),
      Get(a, "exception.message", JStr("No message")),
      Get(a, "exception.language", JStr("unknown")),
      Get(data.fields, "event_name", JStr("unknown")),
      stack.s, frames, internal.value);
    var parts := AssembleReport(t);
    r := Join(parts, "\n");
  }

  /** A trace whose frames are all library frames reports no internal frame and a zero count,
      whatever the total number of frames. */
  lemma AllExternalFrames(t: TraceSummary)
    requires AllObjects(t.frames) && t.internal == Kept(t.frames)
    requires forall k :: 0 <= k < |t.frames| ==> !IsInternal(t.frames[k].fields)
    ensures FrameSection(t.internal) == [NoInternalFrames]
    ensures var c := ClosingParts(t); |c| == 12 && c[11] == CountLine(0)
  {
    if t.internal != [] {
      var f := t.internal[0];
      KeptMembers(t.frames, f);
      assert false;
    }
    ClosingLayout(t);
  }
}
