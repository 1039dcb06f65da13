/** The AI agent's response normaliser. The agent sends the knowledge
    files, the system prompt, the diagram and a text part to the model, parses
    the model's text as JSON, and whatever happens returns an object with the
    four keys the routes and the frontend read: status, filename, code and
    explanation. The model call and the JSON parser are parameters. */
module GeminiAgent {
  import opened Remote
  import opened Http
  import OpmRouter

  /** A parsed JSON value. Floats keep their text; they are never inspected. */
  datatype Json =
    | JNull
    | JBool(b: bool)
    | JInt(i: int)
    | JFloat(text: string)
    | JString(s: string)
    | JArray(items: seq<Json>)
    | JObject(fields: map<string, Json>)

  /** The Python type `json.loads` returns for each kind of value. */
  function PyTypeName(j: Json): string {
    match j
    case JNull => "NoneType"
    case JBool(_) => "bool"
    case JInt(_) => "int"
    case JFloat(_) => "float"
    case JString(_) => "str"
    case JArray(_) => "list"
    case JObject(_) => "dict"
  }

  const RequiredKeys: set<string> := {"status", "filename", "code", "explanation"}

  /** The value is an object carrying every required key. */
  predicate HasRequiredKeys(j: Json) {
    j.JObject? && RequiredKeys <= j.fields.Keys
  }

  /** One element of the request sent to the model. */
  datatype Part =
    | KnowledgeFile(displayName: string)
    | SystemPrompt
    | Bytes(data: seq<bv8>, mimeType: string)
    | Text(text: string)

  /** The two knowledge sources uploaded once when the agent starts. */
  const KnowledgeBase: seq<Part> := [KnowledgeFile("OPM_Manual"), KnowledgeFile("OPM_Lecture")]

  /** The model call: the request's parts in, the response text or an exception out. */
  type ModelCall = seq<Part> -> Attempt<string>

  /** `json.loads`: a value, or None for a `JSONDecodeError`. */
  type JsonParser = string -> Option<Json>

  /** `_empty_invalid_response`. */
  function EmptyInvalidResponse(msg: string): (r: Json)
    ensures r.JObject? && r.fields.Keys == RequiredKeys
    ensures r.fields["status"] == JString("invalid") && r.fields["filename"] == JString("")
    ensures r.fields["code"] == JString("") && r.fields["explanation"] == JString(msg)
  {
    JObject(map["status" := JString("invalid"), "filename" := JString(""),
                "code" := JString(""), "explanation" := JString(msg)])
  }

  const NotJson: string := "Model failed to produce valid JSON."
  const MissingFields: string := "Model output missing required fields."

  /** The text of the `AttributeError` raised by calling `.keys()` on a parsed value. */
  function NoKeysMessage(j: Json): string {
    "'" + PyTypeName(j) + "' object has no attribute 'keys'"
  }

  /** `_call_gemini` as written: `result.keys()` is called on whatever the
      parser produced, so a JSON value that is not an object raises
      `AttributeError` out of the agent. */
  function CallGeminiAsWritten(contents: seq<Part>, model: ModelCall, loads: JsonParser): Attempt<Json> {
    match model(contents)
    case Raised(e) => Completed(EmptyInvalidResponse("API call failed: " + e))
    case Completed(text) =>
      match loads(text)
      case None => Completed(EmptyInvalidResponse(NotJson))
      case Some(result) =>
        if !result.JObject? then Raised(NoKeysMessage(result))
        else if !(RequiredKeys <= result.fields.Keys) then Completed(EmptyInvalidResponse(MissingFields))
        else Completed(result)
  }

  /** `_call_gemini` with the key check applied to objects only: any other
      JSON value is output missing the required fields. */
  function CallGemini(contents: seq<Part>, model: ModelCall, loads: JsonParser): Json {
    match model(contents)
    case Raised(e) => EmptyInvalidResponse("API call failed: " + e)
    case Completed(text) =>
      match loads(text)
      case None => EmptyInvalidResponse(NotJson)
      case Some(result) =>
        if !HasRequiredKeys(result) then EmptyInvalidResponse(MissingFields)
        else result
  }

  /** Every result carries the four required keys; a failed call, unparsable
      text and output lacking a key each have their own explanation; output
      with every key is passed through untouched, extra keys and an
      unchecked status included. */
  lemma CallGeminiOutcomes(contents: seq<Part>, model: ModelCall, loads: JsonParser)
    ensures HasRequiredKeys(CallGemini(contents, model, loads))
    ensures model(contents).Raised? ==>
              CallGemini(contents, model, loads) == EmptyInvalidResponse("API call failed: " + model(contents).message)
    ensures model(contents).Completed? && loads(model(contents).value).None? ==>
              CallGemini(contents, model, loads) == EmptyInvalidResponse(NotJson)
    ensures model(contents).Completed? && loads(model(contents).value).Some? ==>
              var j := loads(model(contents).value).value;
              && (!HasRequiredKeys(j) ==> CallGemini(contents, model, loads) == EmptyInvalidResponse(MissingFields))
              && (HasRequiredKeys(j) ==> CallGemini(contents, model, loads) == j)
  {
  }

  /** A failed result says so: its status is "invalid", code and file name
      are empty, and its explanation names the failure. */
  lemma FailureExplained(contents: seq<Part>, model: ModelCall, loads: JsonParser)
    requires model(contents).Raised? || loads(model(contents).value).None?
             || !HasRequiredKeys(loads(model(contents).value).value)
    ensures var r := CallGemini(contents, model, loads);
            && r.fields["status"] == JString("invalid") && r.fields["code"] == JString("")
            && r.fields["explanation"].JString?
            && (model(contents).Raised? ==> r.fields["explanation"].s[..17] == "API call failed: ")
  {
    var r := CallGemini(contents, model, loads);
    if model(contents).Raised? {
      var msg := "API call failed: " + model(contents).message;
      assert r.fields["explanation"].s == msg;
      assert msg[..17] == "API call failed: ";
    }
  }

  /** Written as it is, the agent raises instead of answering when the
      model's JSON is an array: `[].keys()` does not exist. */
  lemma ArrayOutputRaises()
    ensures CallGeminiAsWritten([], _ => Completed("[]"), _ => Some(JArray([])))
              == Raised(NoKeysMessage(JArray([])))
    ensures CallGemini([], _ => Completed("[]"), _ => Some(JArray([]))) == EmptyInvalidResponse(MissingFields)
  {
  }

  /** The two readings differ only on JSON that is not an object. */
  lemma AsWrittenAgreesOnObjects(contents: seq<Part>, model: ModelCall, loads: JsonParser)
    requires model(contents).Completed? && loads(model(contents).value).Some? ==>
               loads(model(contents).value).value.JObject?
    ensures CallGeminiAsWritten(contents, model, loads) == Completed(CallGemini(contents, model, loads))
  {
  }

  /** The diagram part: the bytes sent under the PDF media type whatever the upload's format. */
  function DiagramPart(diagram: seq<bv8>): Part {
    Bytes(diagram, "application/pdf")
  }

  /** The refinement text part: the language, the previous code and the fix
      instructions, each after its label. */
  const RefinementHeader: string := "\n        This is a REFINEMENT REQUEST:.\n        Target Language: "
  const PreviousCodeLabel: string := "\n        Previous Code: "
  const InstructionsLabel: string := "\n        User Fix Instructions: "
  const RefinementFooter: string :=
    "\n\n        Please update the generated code strictly according to the OPM rules defined in the uploaded PDFs.\n        "

  function RefinementContext(language: string, previousCode: string, fixInstructions: string): string {
    RefinementHeader + language + PreviousCodeLabel + previousCode + InstructionsLabel + fixInstructions + RefinementFooter
  }

  /** `sub` occurs in `s` at position `i`. */
  predicate OccursAt(s: string, sub: string, i: nat) {
    i + |sub| <= |s| && s[i..i + |sub|] == sub
  }

  /** The refinement text carries the language, then the previous code, then
      the instructions, each whole and none overlapping the next. */
  lemma RefinementContextOrder(language: string, previousCode: string, fixInstructions: string)
    ensures var ctx := RefinementContext(language, previousCode, fixInstructions);
            exists i: nat, j: nat, k: nat ::
              && OccursAt(ctx, language, i) && OccursAt(ctx, previousCode, j) && OccursAt(ctx, fixInstructions, k)
              && i + |language| < j && j + |previousCode| < k
  {
    var ctx := RefinementContext(language, previousCode, fixInstructions);
    var i := |RefinementHeader|;
    var j := i + |language| + |PreviousCodeLabel|;
    var k := j + |previousCode| + |InstructionsLabel|;
    assert PreviousCodeLabel[0] == '\n' && InstructionsLabel[0] == '\n';
    assert ctx[i..i + |language|] == language;
    assert ctx[j..j + |previousCode|] == previousCode;
    assert ctx[k..k + |fixInstructions|] == fixInstructions;
    assert OccursAt(ctx, language, i) && OccursAt(ctx, previousCode, j) && OccursAt(ctx, fixInstructions, k);
  }

  /** The parts of a generation request. */
  function GenerateContents(diagram: seq<bv8>, language: string): (c: seq<Part>)
    ensures |c| == |KnowledgeBase| + 3 && c[..|KnowledgeBase|] == KnowledgeBase
    ensures c[|KnowledgeBase|] == SystemPrompt && c[|KnowledgeBase| + 1] == DiagramPart(diagram)
    ensures c[|c| - 1] == Text("Target Programming Language: " + language)
  {
    KnowledgeBase + [SystemPrompt, DiagramPart(diagram), Text("Target Programming Language: " + language)]
  }

  /** The parts of a refinement request. */
  function RefineContents(diagram: seq<bv8>, language: string, previousCode: string, fixInstructions: string): (c: seq<Part>)
    ensures |c| == |KnowledgeBase| + 3 && c[..|KnowledgeBase|] == KnowledgeBase
    ensures c[|KnowledgeBase|] == SystemPrompt && c[|KnowledgeBase| + 1] == DiagramPart(diagram)
    ensures c[|c| - 1] == Text(RefinementContext(language, previousCode, fixInstructions))
  {
    KnowledgeBase + [SystemPrompt, DiagramPart(diagram), Text(RefinementContext(language, previousCode, fixInstructions))]
  }

  /** `generate_code_from_diagram`; the file name is accepted and not used. */
  function GenerateCodeFromDiagram(diagram: seq<bv8>, filename: string, language: string,
                                   model: ModelCall, loads: JsonParser): Json {
    CallGemini(GenerateContents(diagram, language), model, loads)
  }

  /** `refine_generated_code`; the file name is accepted and not used. */
  function RefineGeneratedCode(diagram: seq<bv8>, filename: string, language: string, previousCode: string,
                               fixInstructions: string, model: ModelCall, loads: JsonParser): Json {
    CallGemini(RefineContents(diagram, language, previousCode, fixInstructions), model, loads)
  }

  /** The file name plays no part in what the agent sends or returns. */
  lemma FilenameUnused(diagram: seq<bv8>, a: string, b: string, language: string, previousCode: string,
                       fixInstructions: string, model: ModelCall, loads: JsonParser)
    ensures GenerateCodeFromDiagram(diagram, a, language, model, loads)
              == GenerateCodeFromDiagram(diagram, b, language, model, loads)
    ensures RefineGeneratedCode(diagram, a, language, previousCode, fixInstructions, model, loads)
              == RefineGeneratedCode(diagram, b, language, previousCode, fixInstructions, model, loads)
  {
  }

  // ---------------------------------------------------------------------
  // The routes' calls into the agent

  /** The keyword both routes pass the diagram under, and the one both entry points declare. */
  const PassedKeyword: string := "diagram_bytes"
  const DeclaredKeyword: string := "pdf_bytes"

  const GenerateQualname: string := "GeminiOPMAgent.generate_code_from_diagram"
  const RefineQualname: string := "GeminiOPMAgent.refine_generated_code"

  /** Python's `TypeError` text for a keyword the callee does not declare. */
  function UnexpectedKeyword(callee: string, keyword: string): string {
    callee + "() got an unexpected keyword argument '" + keyword + "'"
  }

  /** A call passing the diagram as `keyword`: a keyword the entry point
      does not declare raises before its body runs; otherwise the call has
      the outcome `run` of the body. */
  function CallByKeyword<T>(callee: string, keyword: string, run: Attempt<T>): (a: Attempt<T>)
    ensures keyword == DeclaredKeyword ==> a == run
    ensures keyword != DeclaredKeyword ==> a == Raised(UnexpectedKeyword(callee, keyword))
  {
    if keyword == DeclaredKeyword then run else Raised(UnexpectedKeyword(callee, keyword))
  }

  /** `generate_code` with its agent call made under `keyword`, the body's outcome being `run`. */
  function GenerateRoute(keyword: string, language: string, file: OpmRouter.Upload, run: Attempt<Json>): Result<Json> {
    OpmRouter.GenerateCode(language, file, CallByKeyword(GenerateQualname, keyword, run))
  }

  /** `refine_code` with its agent call made under `keyword`, the body's outcome being `run`. */
  function RefineRoute(keyword: string, language: string, file: OpmRouter.Upload, previousCode: string,
                       fixInstructions: string, run: Attempt<Json>): Result<Json> {
    OpmRouter.RefineCode(language, file, previousCode, fixInstructions, CallByKeyword(RefineQualname, keyword, run))
  }

  /** As written, both routes pass `diagram_bytes=`, which neither entry
      point declares: every request that passes the checks is answered with
      a 500 carrying the `TypeError`, whatever the model would have said. */
  lemma KeywordMismatchFailsEveryRequest(language: string, file: OpmRouter.Upload, previousCode: string,
                                         fixInstructions: string, run: Attempt<Json>)
    requires OpmRouter.UploadCheck(language, file).None?
    ensures GenerateRoute(PassedKeyword, language, file, run)
              == Err(HttpError(500, "Failed to generate code: " + UnexpectedKeyword(GenerateQualname, PassedKeyword)))
    ensures OpmRouter.RefineCheck(language, file, previousCode, fixInstructions).None? ==>
              RefineRoute(PassedKeyword, language, file, previousCode, fixInstructions, run)
                == Err(HttpError(500, "Failed to refine code: " + UnexpectedKeyword(RefineQualname, PassedKeyword)))
  {
    assert PassedKeyword[0] != DeclaredKeyword[0];
  }

  /** With the diagram passed as `pdf_bytes` and the key check applied to
      objects only, a request that passes a route's checks is answered
      with an object carrying all four keys. */
  lemma AcceptedRequestAnswered(language: string, file: OpmRouter.Upload, previousCode: string,
                                fixInstructions: string, model: ModelCall, loads: JsonParser)
    requires OpmRouter.UploadCheck(language, file).None?
    ensures var r := GenerateRoute(DeclaredKeyword, language, file,
                       Completed(GenerateCodeFromDiagram(file.contents, file.filename, language, model, loads)));
            r.Ok? && HasRequiredKeys(r.value)
    ensures OpmRouter.RefineCheck(language, file, previousCode, fixInstructions).None? ==>
              var r := RefineRoute(DeclaredKeyword, language, file, previousCode, fixInstructions,
                         Completed(RefineGeneratedCode(file.contents, file.filename, language, previousCode,
                                                       fixInstructions, model, loads)));
              r.Ok? && HasRequiredKeys(r.value)
  {
    CallGeminiOutcomes(GenerateContents(file.contents, language), model, loads);
    CallGeminiOutcomes(RefineContents(file.contents, language, previousCode, fixInstructions), model, loads);
  }

  /** With the diagram passed as `pdf_bytes` but the key check as written,
      model output that parses to anything but an object turns an accepted
      generation request into a 500. */
  lemma NonObjectOutputFailsRequest(language: string, file: OpmRouter.Upload, model: ModelCall, loads: JsonParser)
    requires OpmRouter.UploadCheck(language, file).None?
    requires model(GenerateContents(file.contents, language)).Completed?
    requires loads(model(GenerateContents(file.contents, language)).value).Some?
    requires !loads(model(GenerateContents(file.contents, language)).value).value.JObject?
    ensures var j := loads(model(GenerateContents(file.contents, language)).value).value;
            GenerateRoute(DeclaredKeyword, language, file, CallGeminiAsWritten(GenerateContents(file.contents, language), model, loads))
              == Err(HttpError(500, "Failed to generate code: " + NoKeysMessage(j)))
  {
  }
}
