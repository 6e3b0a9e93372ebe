/** The blackboard the three stages share (`SharedMemory` in solution/core/shared_memory.py):
    three optional record slots, each holding the record's `to_dict()`, and store metadata.
    The Python object keeps everything in one dict `_state`; here that dict is the field
    `state`. The lock only serialises access and is not modelled; clock readings are the
    `now` parameters. */
module SharedMemory {
  import opened Wrappers
  import opened Json
  import opened Records

  datatype Metadata = Metadata(createdAt: string, lastUpdated: string, version: string)

  datatype StoreState = StoreState(
    rca: Option<JObj>,
    fixPlan: Option<JObj>,
    patchMetadata: Option<JObj>,
    metadata: Metadata)

  const SchemaVersion := "1.0"

  function SlotToJson(slot: Option<JObj>): JValue {
    match slot
    case None => JNull
    case Some(d) => JObject(d)
  }

  function SlotFromJson(v: JValue): Option<Option<JObj>> {
    match v
    case JNull => Some(None)
    case JObject(d) => Some(Some(d))
    case _ => None
  }

  /** The JSON document that `save` writes and `get_full_state` returns. */
  function StateToJson(s: StoreState): JValue {
    JObject(map[
      "rca" := SlotToJson(s.rca),
      "fix_plan" := SlotToJson(s.fixPlan),
      "patch_metadata" := SlotToJson(s.patchMetadata),
      "metadata" := JObject(map[
        "created_at" := JStr(s.metadata.createdAt),
        "last_updated" := JStr(s.metadata.lastUpdated),
        "version" := JStr(s.metadata.version)])])
  }

  /** Reads a document of the store's shape back into a state; any other document is `None`. */
  function StateFromJson(doc: JValue): Option<StoreState> {
    if !doc.JObject? then None
    else
      var d := doc.fields;
      if !("rca" in d && "fix_plan" in d && "patch_metadata" in d && "metadata" in d) then None
      else
        var rca := SlotFromJson(d["rca"]);
        var fix := SlotFromJson(d["fix_plan"]);
        var patch := SlotFromJson(d["patch_metadata"]);
        var meta := d["metadata"];
        if rca.None? || fix.None? || patch.None? || !meta.JObject? then None
        else
          var m := meta.fields;
          if !("created_at" in m && "last_updated" in m && "version" in m) then None
          else if !(m["created_at"].JStr? && m["last_updated"].JStr? && m["version"].JStr?) then None
          else Some(StoreState(rca.value, fix.value, patch.value,
                               Metadata(m["created_at"].s, m["last_updated"].s, m["version"].s)))
  }

  /** What `save` writes, `load` reads back unchanged. */
  lemma StateJsonRoundTrip(s: StoreState)
    ensures StateFromJson(StateToJson(s)) == Some(s)
  {
  }

  class SharedMemory {
    var state: StoreState

    /** A fresh store: every slot empty, created and updated now, schema version "1.0". */
    constructor(now: string)
      ensures state == StoreState(None, None, None, Metadata(now, now, SchemaVersion))
      ensures GetRca() == None && GetFixPlan() == None && GetPatchMetadata() == None
      ensures GetRcaDict() == None && GetFixPlanDict() == None && GetPatchMetadataDict() == None
    {
      state := StoreState(None, None, None, Metadata(now, now, SchemaVersion));
    }

    /** `set_rca`: stamps the record (the caller's object too, returned here as `stamped`),
        replaces the whole slot with its dict and refreshes `last_updated`; nothing else in
        the store changes. */
    method SetRca(rca: RCAResult, now: string) returns (stamped: RCAResult)
      modifies this
      ensures stamped == rca.(timestamp := JStr(now))
      ensures state == old(state).(rca := Some(RcaToDict(stamped)),
                                   metadata := old(state).metadata.(lastUpdated := now))
      ensures GetRca() == Some(stamped)
      ensures GetRcaDict() == Some(RcaToDict(stamped))
    {
      stamped := rca.(timestamp := JStr(now));
      state := state.(rca := Some(RcaToDict(stamped)));
      state := state.(metadata := state.metadata.(lastUpdated := now));
      RcaDictRoundTrip(stamped);
    }

    /** `set_fix_plan`: as `SetRca`, for the fix-plan slot. */
    method SetFixPlan(plan: FixPlan, now: string) returns (stamped: FixPlan)
      modifies this
      ensures stamped == plan.(timestamp := JStr(now))
      ensures state == old(state).(fixPlan := Some(FixToDict(stamped)),
                                   metadata := old(state).metadata.(lastUpdated := now))
      ensures GetFixPlan() == Some(stamped)
      ensures GetFixPlanDict() == Some(FixToDict(stamped))
    {
      stamped := plan.(timestamp := JStr(now));
      state := state.(fixPlan := Some(FixToDict(stamped)));
      state := state.(metadata := state.metadata.(lastUpdated := now));
      FixDictRoundTrip(stamped);
    }

    /** `set_patch_metadata`: as `SetRca`, for the patch slot. */
    method SetPatchMetadata(patch: PatchMetadata, now: string) returns (stamped: PatchMetadata)
      modifies this
      ensures stamped == patch.(timestamp := JStr(now))
      ensures state == old(state).(patchMetadata := Some(PatchToDict(stamped)),
                                   metadata := old(state).metadata.(lastUpdated := now))
      ensures GetPatchMetadata() == Some(stamped)
      ensures GetPatchMetadataDict() == Some(PatchToDict(stamped))
    {
      stamped := patch.(timestamp := JStr(now));
      state := state.(patchMetadata := Some(PatchToDict(stamped)));
      state := state.(metadata := state.metadata.(lastUpdated := now));
      PatchDictRoundTrip(stamped);
    }

    /** `get_rca`: no record when the slot is empty or holds an empty dict (both are falsy in
        Python); otherwise the record rebuilt from the stored dict's declared fields. */
    function GetRca(): (r: Option<RCAResult>)
      reads this
      ensures r.None? <==> state.rca.None? || state.rca.value == map[]
      ensures r.Some? ==> forall k :: k in state.rca.value && k in RcaFields ==>
                            RcaToDict(r.value)[k] == state.rca.value[k]
    {
      if state.rca.Some? && state.rca.value != map[] then Some(RcaFromDict(state.rca.value))
      else None
    }

    function GetRcaDict(): Option<JObj>
      reads this
    {
      state.rca
    }

    /** `get_fix_plan`: as `GetRca`, for the fix-plan slot. */
    function GetFixPlan(): (r: Option<FixPlan>)
      reads this
      ensures r.None? <==> state.fixPlan.None? || state.fixPlan.value == map[]
      ensures r.Some? ==> forall k :: k in state.fixPlan.value && k in FixFields ==>
                            FixToDict(r.value)[k] == state.fixPlan.value[k]
    {
      if state.fixPlan.Some? && state.fixPlan.value != map[] then Some(FixFromDict(state.fixPlan.value))
      else None
    }

    function GetFixPlanDict(): Option<JObj>
      reads this
    {
      state.fixPlan
    }

    /** `get_patch_metadata`: as `GetRca`, for the patch slot. */
    function GetPatchMetadata(): (r: Option<PatchMetadata>)
      reads this
      ensures r.None? <==> state.patchMetadata.None? || state.patchMetadata.value == map[]
      ensures r.Some? ==> forall k :: k in state.patchMetadata.value && k in PatchFields ==>
                            PatchToDict(r.value)[k] == state.patchMetadata.value[k]
    {
      if state.patchMetadata.Some? && state.patchMetadata.value != map[] then
        Some(PatchFromDict(state.patchMetadata.value))
      else None
    }

    function GetPatchMetadataDict(): Option<JObj>
      reads this
    {
      state.patchMetadata
    }

    /** `get_full_state`: the whole store as a JSON document. Being a value, later changes to
        the store cannot reach it (the Python code deep-copies through `json`). */
    function GetFullState(): (doc: JValue)
      reads this
      ensures StateFromJson(doc) == Some(state)
    {
      StateJsonRoundTrip(state);
      StateToJson(state)
    }

    /** `get_context_for_agent`: the fix stage sees the analysis only, the patch stage the
        analysis and the fix plan; any other name sees nothing. */
    function GetContextForAgent(agentName: string): (ctx: map<string, Option<JObj>>)
      reads this
      ensures "patch_metadata" !in ctx
      ensures agentName == "fix_agent" ==> ctx == map["rca" := state.rca]
      ensures agentName == "patch_agent" ==>
                ctx.Keys == {"rca", "fix_plan"} && ctx["rca"] == state.rca && ctx["fix_plan"] == state.fixPlan
      ensures agentName != "fix_agent" && agentName != "patch_agent" ==> ctx == map[]
    {
      if agentName == "fix_agent" then map["rca" := state.rca]
      else if agentName == "patch_agent" then map["rca" := state.rca, "fix_plan" := state.fixPlan]
      else map[]
    }

    /** `load`: when the file exists its document replaces the whole state (no merge);
        otherwise nothing changes. The document is given already in the store's shape. */
    method Load(file: Option<StoreState>)
      modifies this
      ensures file.None? ==> state == old(state)
      ensures file.Some? ==> state == file.value
    {
      if file.Some? {
        state := file.value;
      }
    }
  }

  /** A stage never sees its own output or a later stage's: the patch slot is exposed to no
      stage and the fix-plan slot only to the patch stage. */
  lemma ContextIsUpstreamOnly(m: SharedMemory, agentName: string)
    ensures "patch_metadata" !in m.GetContextForAgent(agentName)
    ensures "fix_plan" in m.GetContextForAgent(agentName) ==> agentName == "patch_agent"
  {
  }
}
