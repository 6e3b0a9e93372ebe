/** The three records the stages exchange: a root-cause analysis, a fix plan and patch
    metadata (Python dataclasses `RCAResult`, `FixPlan` and `PatchMetadata`). Python does not
    check field types, so every field holds whatever JSON value was put there; `to_dict` gives
    the declared fields as a dict and `from_dict` rebuilds a record from the declared keys of a
    dict, using the dataclass default for a missing key. */
module Records {
  import opened Json

  datatype RCAResult = RCAResult(
    errorType: JValue,
    errorMessage: JValue,
    rootCause: JValue,
    affectedFile: JValue,
    affectedLine: JValue,
    affectedFunction: JValue,
    evidence: JValue,
    timestamp: JValue)

  datatype FixPlan = FixPlan(
    description: JValue,
    steps: JValue,
    safetyConsiderations: JValue,
    expectedOutcome: JValue,
    timestamp: JValue)

  datatype PatchMetadata = PatchMetadata(
    originalFile: JValue,
    patchedFile: JValue,
    changesMade: JValue,
    linesModified: JValue,
    patchContent: JValue,
    timestamp: JValue)

  const EmptyText := JStr("")
  const EmptyList := JList([])

  /** The dataclass fields, in declaration order. */
  const RcaFields: seq<string> := ["error_type", "error_message", "root_cause", "affected_file",
    "affected_line", "affected_function", "evidence", "timestamp"]
  const FixFields: seq<string> := ["description", "steps", "safety_considerations",
    "expected_outcome", "timestamp"]
  const PatchFields: seq<string> := ["original_file", "patched_file", "changes_made",
    "lines_modified", "patch_content", "timestamp"]

  function RcaToDict(r: RCAResult): (d: JObj)
    ensures d.Keys == set k | k in RcaFields
  {
    map["error_type" := r.errorType, "error_message" := r.errorMessage,
        "root_cause" := r.rootCause, "affected_file" := r.affectedFile,
        "affected_line" := r.affectedLine, "affected_function" := r.affectedFunction,
        "evidence" := r.evidence, "timestamp" := r.timestamp]
  }

  function RcaFromDict(d: JObj): RCAResult {
    RCAResult(Get(d, "error_type", EmptyText), Get(d, "error_message", EmptyText),
              Get(d, "root_cause", EmptyText), Get(d, "affected_file", EmptyText),
              Get(d, "affected_line", JInt(0)), Get(d, "affected_function", EmptyText),
              Get(d, "evidence", EmptyList), Get(d, "timestamp", EmptyText))
  }

  function FixToDict(f: FixPlan): (d: JObj)
    ensures d.Keys == set k | k in FixFields
  {
    map["description" := f.description, "steps" := f.steps,
        "safety_considerations" := f.safetyConsiderations,
        "expected_outcome" := f.expectedOutcome, "timestamp" := f.timestamp]
  }

  function FixFromDict(d: JObj): FixPlan {
    FixPlan(Get(d, "description", EmptyText), Get(d, "steps", EmptyList),
            Get(d, "safety_considerations", EmptyList), Get(d, "expected_outcome", EmptyText),
            Get(d, "timestamp", EmptyText))
  }

  function PatchToDict(p: PatchMetadata): (d: JObj)
    ensures d.Keys == set k | k in PatchFields
  {
    map["original_file" := p.originalFile, "patched_file" := p.patchedFile,
        "changes_made" := p.changesMade, "lines_modified" := p.linesModified,
        "patch_content" := p.patchContent, "timestamp" := p.timestamp]
  }

  function PatchFromDict(d: JObj): PatchMetadata {
    PatchMetadata(Get(d, "original_file", EmptyText), Get(d, "patched_file", EmptyText),
                  Get(d, "changes_made", EmptyList), Get(d, "lines_modified", EmptyList),
                  Get(d, "patch_content", EmptyText), Get(d, "timestamp", EmptyText))
  }

  /** The dict restricted to the declared fields: what `from_dict` actually looks at. */
  function Declared(d: JObj, fields: seq<string>): JObj {
    map k | k in d && k in fields :: d[k]
  }

  /** `from_dict(to_dict(r)) == r` for every analysis. */
  lemma RcaDictRoundTrip(r: RCAResult)
    ensures RcaFromDict(RcaToDict(r)) == r
  {
    var d := RcaToDict(r);
    assert d["error_type"] == r.errorType && d["error_message"] == r.errorMessage;
    assert d["root_cause"] == r.rootCause && d["affected_file"] == r.affectedFile;
    assert d["affected_line"] == r.affectedLine && d["affected_function"] == r.affectedFunction;
    assert d["evidence"] == r.evidence && d["timestamp"] == r.timestamp;
  }

  /** `from_dict(to_dict(f)) == f` for every fix plan. */
  lemma FixDictRoundTrip(f: FixPlan)
    ensures FixFromDict(FixToDict(f)) == f
  {
  }

  /** `from_dict(to_dict(p)) == p` for every patch record. */
  lemma PatchDictRoundTrip(p: PatchMetadata)
    ensures PatchFromDict(PatchToDict(p)) == p
  {
  }

  /** `from_dict` of an analysis ignores every key that is not a declared field. */
  lemma RcaIgnoresUndeclared(d: JObj)
    ensures RcaFromDict(d) == RcaFromDict(Declared(d, RcaFields))
  {
  }

  /** `to_dict(from_dict(d))` of an analysis keeps the value of every declared key of `d`. */
  lemma RcaKeepsDeclared(d: JObj)
    ensures forall k :: k in d && k in RcaFields ==> RcaToDict(RcaFromDict(d))[k] == d[k]
  {
  }

  /** `from_dict` of a fix plan ignores every key that is not a declared field. */
  lemma FixIgnoresUndeclared(d: JObj)
    ensures FixFromDict(d) == FixFromDict(Declared(d, FixFields))
  {
  }

  /** `to_dict(from_dict(d))` of a fix plan keeps the value of every declared key of `d`. */
  lemma FixKeepsDeclared(d: JObj)
    ensures forall k :: k in d && k in FixFields ==> FixToDict(FixFromDict(d))[k] == d[k]
  {
  }

  /** `from_dict` of patch metadata ignores every key that is not a declared field. */
  lemma PatchIgnoresUndeclared(d: JObj)
    ensures PatchFromDict(d) == PatchFromDict(Declared(d, PatchFields))
  {
  }

  /** `to_dict(from_dict(d))` of patch metadata keeps the value of every declared key of `d`. */
  lemma PatchKeepsDeclared(d: JObj)
    ensures forall k :: k in d && k in PatchFields ==> PatchToDict(PatchFromDict(d))[k] == d[k]
  {
  }

}
