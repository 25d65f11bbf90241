/**
 * The orchestrator (`ReceiptAgent`): folding the planner's tool outputs
 * into the analysis record, and the direct pipeline that sequences the
 * tools.  The planner itself is an oracle.
 */
module Agent {

  import opened Py
  import opened Receipts
  import opened Llm
  import opened VectorStore
  import opened Tools

  /** The planner's reply: its text and its metadata (Null when it has none). */
  datatype AgentResponse = AgentResponse(response: Value, metadata: Value)

  /** The four slots of the analysis record that tool outputs fill. */
  datatype Slots = Slots(extractedData: Value, validation: Value, similarReceipts: Value, vendorHistory: Value)
  {
    /** The slot a tool writes; None for a name that is not one of the four tools. */
    function Slot(name: Value): Option<Value> {
      if name == Str(ProcessTool) then Some(extractedData)
      else if name == Str(ValidateTool) then Some(validation)
      else if name == Str(SimilarTool) then Some(similarReceipts)
      else if name == Str(HistoryTool) then Some(vendorHistory)
      else None
    }
  }

  const ProcessTool := "process_receipt_image"
  const ValidateTool := "validate_calculations"
  const SimilarTool := "find_similar_receipts"
  const HistoryTool := "get_vendor_history"

  predicate IsTool(name: Value) {
    name == Str(ProcessTool) || name == Str(ValidateTool) || name == Str(SimilarTool) || name == Str(HistoryTool)
  }

  /** The slots before any output is read: no data, no validation, no similar receipts, no history. */
  const Initial := Slots(Null, Null, Arr([]), Null)

  /** The record `analyze_receipt` returns, by shape. */
  datatype AgentAnalysis =
    | Analyzed(analysis: Value, slots: Slots)   // "success" is True
    | AnalysisFailed(error: string)             // "success" is False

  /** `output.get('tool_name')` */
  function ToolName(output: Dict): Value {
    GetOr(output, "tool_name", Null)
  }

  /** `output.get('output')` */
  function OutputOf(output: Dict): Value {
    GetOr(output, "output", Null)
  }

  /** One tool output written into its slot; other names change nothing. */
  function Record(slots: Slots, output: Dict): (r: Slots)
    ensures IsTool(ToolName(output)) ==> r.Slot(ToolName(output)) == Some(OutputOf(output))
    ensures forall name :: name != ToolName(output) ==> r.Slot(name) == slots.Slot(name)
  {
    var name := ToolName(output);
    var v := OutputOf(output);
    if name == Str(ProcessTool) then slots.(extractedData := v)
    else if name == Str(ValidateTool) then slots.(validation := v)
    else if name == Str(SimilarTool) then slots.(similarReceipts := v)
    else if name == Str(HistoryTool) then slots.(vendorHistory := v)
    else slots
  }

  /** The slots after reading the outputs in order; None when an output is not a dict (`.get` raises). */
  function Merge(outputs: seq<Value>): Option<Slots> {
    if outputs == [] then Some(Initial)
    else
      var init := Merge(outputs[..|outputs| - 1]);
      var last := outputs[|outputs| - 1];
      if init.None? || !last.Obj? then None else Some(Record(init.value, last.fields))
  }

  /** `output` is a dict naming the tool `name`. */
  predicate Names(output: Value, name: Value) {
    output.Obj? && ToolName(output.fields) == name
  }

  /** The position of the last output naming `name`. */
  function LastIndex(outputs: seq<Value>, name: Value): (r: Option<nat>)
    ensures r.Some? ==>
      && r.value < |outputs| && Names(outputs[r.value], name)
      && forall j :: r.value < j < |outputs| ==> !Names(outputs[j], name)
    ensures r.None? ==> forall j :: 0 <= j < |outputs| ==> !Names(outputs[j], name)
  {
    if outputs == [] then None
    else if Names(outputs[|outputs| - 1], name) then Some(|outputs| - 1)
    else LastIndex(outputs[..|outputs| - 1], name)
  }

  /** Reading the outputs fails exactly when one of them is not a dict. */
  lemma {:induction false} MergeFails(outputs: seq<Value>)
    ensures Merge(outputs).None? <==> exists i :: 0 <= i < |outputs| && !outputs[i].Obj?
  {
    if outputs != [] {
      var init := outputs[..|outputs| - 1];
      MergeFails(init);
      if exists i :: 0 <= i < |init| && !init[i].Obj? {
        var i :| 0 <= i < |init| && !init[i].Obj?;
        assert !outputs[i].Obj?;
      }
      if exists i :: 0 <= i < |outputs| && !outputs[i].Obj? {
        var i :| 0 <= i < |outputs| && !outputs[i].Obj?;
        if i < |init| {
          assert !init[i].Obj?;
        }
      }
    }
  }

  /**
   * Last writer wins: each tool's slot holds the output of the last entry
   * naming that tool, or its initial value when no entry names it.
   */
  lemma {:induction false} LastWriterWins(outputs: seq<Value>, name: Value)
    requires Merge(outputs).Some? && IsTool(name)
    ensures Merge(outputs).value.Slot(name) ==
      if LastIndex(outputs, name).Some? then Some(OutputOf(outputs[LastIndex(outputs, name).value].fields))
      else Initial.Slot(name)
  {
    if outputs != [] {
      var init := outputs[..|outputs| - 1];
      var last := outputs[|outputs| - 1];
      LastWriterWins(init, name);
      if !Names(last, name) {
        assert LastIndex(outputs, name) == LastIndex(init, name);
        if LastIndex(init, name).Some? {
          assert outputs[LastIndex(init, name).value] == init[LastIndex(init, name).value];
        }
      }
    }
  }

  /** An output naming no tool leaves every slot as it was. */
  lemma UnknownToolIgnored(outputs: seq<Value>, output: Dict)
    requires Merge(outputs).Some? && !IsTool(ToolName(output))
    ensures Merge(outputs + [Obj(output)]) == Merge(outputs)
  {
    var all := outputs + [Obj(output)];
    assert all[..|all| - 1] == outputs;
  }

  /** `response.metadata.get('tool_outputs', {})` as the loop walks it; None when that raises. */
  function ToolOutputs(metadata: Value): (r: Option<seq<Value>>)
    ensures !Truthy(metadata) ==> r == Some([])
    ensures Truthy(metadata) && !metadata.Obj? ==> r.None?
  {
    if !Truthy(metadata) then Some([])
    else if !metadata.Obj? then None
    else Iterate(GetOr(metadata.fields, "tool_outputs", Obj([])))
  }

  /**
   * What `analyze_receipt` returns for the planner's reply: the reply's
   * text with the merged slots, or the failure record carrying the error.
   */
  function AnalysisOf(reply: Result<AgentResponse>, rt: Runtime): (a: AgentAnalysis)
    ensures reply.Err? ==> a == AnalysisFailed(rt.describe(reply.error))
    ensures reply.Ok? && !Truthy(reply.value.metadata) ==> a == Analyzed(reply.value.response, Initial)
    ensures a.Analyzed? ==>
      && reply.Ok? && a.analysis == reply.value.response
      && ToolOutputs(reply.value.metadata).Some?
      && Merge(ToolOutputs(reply.value.metadata).value) == Some(a.slots)
    ensures reply.Ok? && ToolOutputs(reply.value.metadata).Some? && Merge(ToolOutputs(reply.value.metadata).value).Some? ==>
      a == Analyzed(reply.value.response, Merge(ToolOutputs(reply.value.metadata).value).value)
    ensures a.AnalysisFailed? && reply.Ok? ==> a.error == rt.describe(TypeError)
  {
    if reply.Err? then AnalysisFailed(rt.describe(reply.error))
    else
      var outputs := ToolOutputs(reply.value.metadata);
      if outputs.None? then AnalysisFailed(rt.describe(TypeError))
      else
        var slots := Merge(outputs.value);
        if slots.None? then AnalysisFailed(rt.describe(TypeError))
        else Analyzed(reply.value.response, slots.value)
  }

  /**
   * `analyze_receipt`: runs the planner on the image and writes each tool
   * output into the slot of its tool, in order; any exception becomes the
   * failure record.
   */
  method AnalyzeReceipt(imagePath: string, planner: string -> Result<AgentResponse>, rt: Runtime) returns (a: AgentAnalysis)
    ensures a == AnalysisOf(planner(imagePath), rt)
  {
    var reply := planner(imagePath);
    if reply.Err? {
      return AnalysisFailed(rt.describe(reply.error));
    }
    var slots := Initial;
    var metadata := reply.value.metadata;
    if Truthy(metadata) {
      if !metadata.Obj? {
        return AnalysisFailed(rt.describe(TypeError));
      }
      var source := Iterate(GetOr(metadata.fields, "tool_outputs", Obj([])));
      if source.None? {
        return AnalysisFailed(rt.describe(TypeError));
      }
      var outputs := source.value;
      var i := 0;
      while i < |outputs|
        invariant 0 <= i <= |outputs|
        invariant Merge(outputs[..i]) == Some(slots)
      {
        var output := outputs[i];
        assert outputs[..i + 1][..i] == outputs[..i];
        if !output.Obj? {
          MergeFails(outputs);
          return AnalysisFailed(rt.describe(TypeError));
        }
        slots := Record(slots, output.fields);
        i := i + 1;
      }
      assert outputs[..|outputs|] == outputs;
    }
    return Analyzed(reply.value.response, slots);
  }

  // ---------------------------------------------------------------------
  // process_receipt
  // ---------------------------------------------------------------------

  /** The record `process_receipt` returns, by shape. */
  datatype Processed =
    | Processed(receiptData: Dict, validation: Validation, similarReceipts: seq<SearchResult>, vendorHistory: Option<History>)  // "success" is True
    | ProcessFailed(error: string)                                                                                          // "success" is False

  /**
   * The rest of `process_receipt` once the image is processed: the
   * calculation check of the dict, the receipts similar to its vendor
   * query, and the vendor history only when the dict has a truthy vendor.
   * None of these raises.
   */
  method Summarise(store: ReceiptStore, data: Dict, sv: Services) returns (p: Processed)
    ensures p.Processed? && p.receiptData == data
    ensures p.validation == Validated(data, sv.rt)
    ensures p.similarReceipts == SearchResults(store.documents, VendorQuery(GetOr(data, "vendor", Str("")), sv.rt), 3, sv.backend, sv.rt)
    ensures p.vendorHistory.Some? <==> !Missing(data, "vendor")
    ensures p.vendorHistory.Some? ==>
      var vendor := Get(data, "vendor").value;
      p.vendorHistory.value == VendorSummary(vendor, SearchResults(store.documents, VendorQuery(vendor, sv.rt), 10, sv.backend, sv.rt), sv.rt)
  {
    var validation := ValidateCalculations(data, sv.rt);
    var similar := FindSimilar(store, "Vendor: " + PyStr(GetOr(data, "vendor", Str("")), sv.rt), sv);
    var history: Option<History> := None;
    var vendor := Get(data, "vendor");
    if vendor.Some? && Truthy(vendor.value) {
      var h := GetVendorHistory(store, vendor.value, sv);
      history := Some(h);
    }
    return Processed(data, validation, similar, history);
  }

  /**
   * `process_receipt`: processes the image, then summarises the resulting
   * dict.  A failure of the image pipeline becomes the failure record and
   * leaves the store as it was; the record is a success exactly when the
   * pipeline succeeded.
   */
  method ProcessReceipt(store: ReceiptStore, imagePath: string, id: string, sv: Services) returns (p: Processed)
    modifies store
    ensures exists r ::
              && ImageProcessed(imagePath, id, sv, old(store.documents), store.documents, r)
              && (r.Err? ==> p == ProcessFailed(sv.rt.describe(r.error)))
              && (r.Ok? ==> p.Processed? && p.receiptData == r.value)
    ensures sv.ocr(imagePath).Err? ==> p == ProcessFailed(sv.rt.describe(sv.ocr(imagePath).error))
    ensures p.ProcessFailed? ==> store.documents == old(store.documents) && exists e :: p.error == sv.rt.describe(e)
    ensures p.Processed? ==>
      var data := p.receiptData;
      var vendor := Get(data, "vendor");
      && Get(data, "receipt_id") == Some(Str(id))
      && p.validation == Validated(data, sv.rt)
      && p.similarReceipts == SearchResults(store.documents, VendorQuery(GetOr(data, "vendor", Str("")), sv.rt), 3, sv.backend, sv.rt)
      && (p.vendorHistory.Some? <==> !Missing(data, "vendor"))
      && (p.vendorHistory.Some? ==>
            p.vendorHistory.value == VendorSummary(vendor.value, SearchResults(store.documents, VendorQuery(vendor.value, sv.rt), 10, sv.backend, sv.rt), sv.rt))
    ensures p.Processed? ==> exists rc: Receipt ::
      && store.documents == old(store.documents) + [StoredDocument(id, rc, sv.backend, sv.rt)]
      && (Has(p.receiptData, "vendor") ==> VendorQuery(GetOr(p.receiptData, "vendor", Str("")), sv.rt) + "\n" <= StoredDocument(id, rc, sv.backend, sv.rt).text)
  {
    var result := ProcessReceiptImage(store, imagePath, id, sv);
    if result.Err? {
      return ProcessFailed(sv.rt.describe(result.error));
    }
    ghost var rc: Receipt :| && store.documents == old(store.documents) + [StoredDocument(id, rc, sv.backend, sv.rt)]
                             && GetOr(result.value, "vendor", Str(UnknownVendor)) == Str(rc.vendor);
    VendorQueryIsPrefix(rc, sv.rt);
    p := Summarise(store, result.value, sv);
  }
}
