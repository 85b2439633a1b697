/** The validation Lambda (infrastructure/validation/app.py): on a
    job-completion event it reads the result document, records the result in
    the job table, asks the decision engine about the claim, and publishes a
    "validation completed" event. */
module ValidationHandler {
  import opened Wrappers
  import opened JsonValue
  import opened Text
  import opened JobStore
  import opened Decision
  import opened Cloud
  import opened Lambda
  import Explainability

  const EventSource: string := "benefit-claim-validation-function"
  const EventDetailType: string := "Benefit Claim Validation Completed"

  /** Everything the handler reads before its first request. */
  datatype Inputs = Inputs(
    jobId: Json, jobStatus: Json, objectKey: Json,
    document: Json, blueprint: Json, inference: Json)

  /** `event['detail']['input_s3_object']['name']`. */
  function ReadObjectKey(event: Json): (r: Option<Json>)
    ensures r.Some? <==>
              && Subscript(event, "detail").Some?
              && Subscript(event.fields["detail"], "input_s3_object").Some?
              && Subscript(event.fields["detail"].fields["input_s3_object"], "name").Some?
    ensures r.Some? ==> r.value == event.fields["detail"].fields["input_s3_object"].fields["name"]
  {
    match Subscript(event, "detail")
    case None => None
    case Some(detail) =>
      match Subscript(detail, "input_s3_object")
      case None => None
      case Some(inputObject) => Subscript(inputObject, "name")
  }

  /** The event fields, the result document, and from the document
      `matched_blueprint.name` and `inference_result`. */
  function ReadInputs(blobs: (string, string) -> Option<Json>, event: Json): (r: Result<Inputs, Failure>)
    ensures ReadJobEvent(event).None? || ReadObjectKey(event).None? ==> r == Failure(BadEvent)
    ensures r.Success? ==>
              && ReadJobEvent(event).Some?
              && FetchResult(blobs, ReadJobEvent(event).value) == Success(r.value.document)
              && r.value.jobId == ReadJobEvent(event).value.jobId
              && r.value.jobStatus == ReadJobEvent(event).value.jobStatus
              && Some(r.value.objectKey) == ReadObjectKey(event)
              && Subscript(r.value.document, "inference_result") == Some(r.value.inference)
              && Subscript(r.value.document, "matched_blueprint").Some?
              && Subscript(Subscript(r.value.document, "matched_blueprint").value, "name") == Some(r.value.blueprint)
    ensures ReadJobEvent(event).Some? && ReadObjectKey(event).Some? ==>
              var fetched := FetchResult(blobs, ReadJobEvent(event).value);
              && (fetched.Failure? ==> r == Failure(fetched.error))
              && (fetched.Success? ==>
                    var blueprintEntry := Subscript(fetched.value, "matched_blueprint");
                    // `json_data['matched_blueprint']['name']` is read first, then `json_data['inference_result']`.
                    && (blueprintEntry.None? || Subscript(blueprintEntry.value, "name").None? ==>
                          r == Failure(BadResult))
                    && (Subscript(fetched.value, "inference_result").None? ==> r == Failure(BadResult))
                    && ((&& blueprintEntry.Some? && Subscript(blueprintEntry.value, "name").Some?
                         && Subscript(fetched.value, "inference_result").Some?) ==> r.Success?))
  {
    match (ReadJobEvent(event), ReadObjectKey(event))
    case (Some(job), Some(objectKey)) =>
      (match FetchResult(blobs, job)
       case Failure(e) => Failure(e)
       case Success(doc) =>
         match Subscript(doc, "matched_blueprint")
         case None => Failure(BadResult)
         case Some(blueprintEntry) =>
           match (Subscript(blueprintEntry, "name"), Subscript(doc, "inference_result"))
           case (Some(blueprint), Some(inference)) =>
             Success(Inputs(job.jobId, job.jobStatus, objectKey, doc, blueprint, inference))
           case _ => Failure(BadResult))
    case _ => Failure(BadEvent)
  }

  /** The `update_item` request `update_in_dynamodb` sends, if any: none when
      the table name is unset or a key or attribute value is not a string,
      since the client refuses those before sending (and the handler swallows
      that error like any other). */
  function UpdateRequest(settings: Settings, rendering: Rendering, invocationId: Json, objectKey: Json,
                         status: Json, inference: Json, blueprint: Json): (r: Option<Call>)
    ensures r.Some? <==> settings.tableName.Some? && invocationId.JString? && objectKey.JString?
                         && status.JString? && blueprint.JString?
    ensures r.Some? ==> r.value == UpdateJobItem(JobKey(invocationId.s, objectKey.s), status.s,
                                                 rendering.dumps(inference), blueprint.s)
  {
    if settings.tableName.Some? && invocationId.JString? && objectKey.JString? && status.JString? && blueprint.JString?
    then Some(UpdateJobItem(JobKey(invocationId.s, objectKey.s), status.s, rendering.dumps(inference), blueprint.s))
    else None
  }

  /** The table after an `update_item` request was sent or not. */
  function AfterUpdate(t: Table, accepted: bool, request: Option<Call>): Table
  {
    match request
    case Some(UpdateJobItem(key, status, inferenceResult, bluePrintName)) =>
      if accepted then Update(t, key, status, inferenceResult, bluePrintName) else t
    case _ => t
  }

  /** `update_in_dynamodb`: every failure is logged and swallowed. */
  method UpdateInDynamodb(svc: Services, settings: Settings, rendering: Rendering, invocationId: Json,
                          objectKey: Json, status: Json, inference: Json, blueprint: Json)
    modifies svc
    ensures var request := UpdateRequest(settings, rendering, invocationId, objectKey, status, inference, blueprint);
            && svc.jobs == AfterUpdate(old(svc.jobs), svc.writesAccepted, request)
            && svc.calls == old(svc.calls) + (if request.Some? then [request.value] else [])
    ensures svc.outbox == old(svc.outbox)
  {
    var request := UpdateRequest(settings, rendering, invocationId, objectKey, status, inference, blueprint);
    if request.Some? {
      var _ := svc.UpdateItem(request.value.key, request.value.status, request.value.inferenceResult,
                              request.value.bluePrintName);
    }
  }

  /** The request `validateBenefitClaim` sends, once both knowledge-base
      settings are present (`os.environ[...]` raises otherwise). */
  function DecisionQuery(settings: Settings, rendering: Rendering, claim: Json, blueprint: Json): (r: Option<DecisionRequest>)
    ensures r.Some? <==> settings.knowledgeBaseId.Some? && settings.knowledgeBaseModelId.Some?
    ensures r.Some? ==>
              && r.value.knowledgeBaseId == settings.knowledgeBaseId.value
              && r.value.modelArn == settings.knowledgeBaseModelId.value
              && r.value.inputText == Prompt(blueprint, rendering.str(claim))
              // The prompt sent carries the claim and asks the selected question.
              && IsSubstring(rendering.str(claim), r.value.inputText)
              && IsSubstring(Question(SelectTemplate(blueprint)), r.value.inputText)
  {
    match (settings.knowledgeBaseId, settings.knowledgeBaseModelId)
    case (Some(kb), Some(model)) =>
      PromptContents(blueprint, rendering.str(claim));
      Some(DecisionRequest(Prompt(blueprint, rendering.str(claim)), kb, model))
    case _ => None
  }

  /** What `validateBenefitClaim` returns or raises. A raising decision call
      leaves `validation_response` unbound, so its `return` raises too. */
  function Approval(engine: DecisionRequest -> Option<Reply>, settings: Settings, rendering: Rendering,
                    claim: Json, blueprint: Json): (r: Result<string, Failure>)
    ensures DecisionQuery(settings, rendering, claim, blueprint).None? ==> r == Failure(MissingSetting)
    ensures var query := DecisionQuery(settings, rendering, claim, blueprint);
            query.Some? ==>
              && (engine(query.value).Some? ==> r == Success(ReplyText(engine(query.value).value)))
              && (engine(query.value).None? ==> r == Failure(DecisionFailed))
  {
    match DecisionQuery(settings, rendering, claim, blueprint)
    case None => Failure(MissingSetting)
    case Some(query) =>
      match engine(query)
      case None => Failure(DecisionFailed)
      case Some(reply) => Success(ReplyText(reply))
  }

  /** `validateBenefitClaim(claimReceiptData, blue_print_name)`. */
  method ValidateBenefitClaim(svc: Services, settings: Settings, rendering: Rendering, claim: Json, blueprint: Json)
    returns (r: Result<string, Failure>)
    modifies svc
    ensures r == Approval(svc.engine, settings, rendering, claim, blueprint)
    ensures var query := DecisionQuery(settings, rendering, claim, blueprint);
            svc.calls == old(svc.calls) + (if query.Some? then [QueryEngine(query.value)] else [])
    ensures svc.jobs == old(svc.jobs) && svc.outbox == old(svc.outbox)
  {
    var inputText := Prompt(blueprint, rendering.str(claim));
    if settings.knowledgeBaseId.None? || settings.knowledgeBaseModelId.None? {
      return Failure(MissingSetting);
    }
    var reply := svc.RetrieveAndGenerate(
      DecisionRequest(inputText, settings.knowledgeBaseId.value, settings.knowledgeBaseModelId.value));
    if reply.None? {
      return Failure(DecisionFailed);
    }
    r := Success(ReplyText(reply.value));
  }

  /** The detail object of the published event. */
  function Detail(jobId: Json, inference: Json, validation: string): (d: Json)
    ensures d.JObject? && d.fields.Keys == {"bda_invocation_id", "inference_result", "validation_result"}
    ensures d.fields["bda_invocation_id"] == jobId && d.fields["inference_result"] == inference
    ensures d.fields["validation_result"] == JString(validation)
  {
    JObject(map["bda_invocation_id" := jobId, "inference_result" := inference, "validation_result" := JString(validation)])
  }

  /** The one entry `put_events` publishes: the fixed source and detail type,
      and the detail object rendered by `json.dumps`. */
  function CompletedEvent(rendering: Rendering, jobId: Json, inference: Json, validation: string): (e: BusEvent)
    ensures e.source == "benefit-claim-validation-function"
    ensures e.detailType == "Benefit Claim Validation Completed"
    ensures e.detail == rendering.dumps(Detail(jobId, inference, validation))
  {
    BusEvent(EventSource, EventDetailType, rendering.dumps(Detail(jobId, inference, validation)))
  }

  /** `lambda_handler(event, context)`. */
  method LambdaHandler(svc: Services, settings: Settings, rendering: Rendering, event: Json) returns (out: Outcome)
    modifies svc
    // No logged request is sent before the event and the result document are read.
    ensures ReadInputs(svc.blobs, event).Failure? ==>
              && out == Raised(ReadInputs(svc.blobs, event).error)
              && svc.jobs == old(svc.jobs) && svc.outbox == old(svc.outbox) && svc.calls == old(svc.calls)
    ensures ReadInputs(svc.blobs, event).Success? ==>
              var inputs := ReadInputs(svc.blobs, event).value;
              var update := UpdateRequest(settings, rendering, inputs.jobId, inputs.objectKey,
                                          inputs.jobStatus, inputs.inference, inputs.blueprint);
              var query := DecisionQuery(settings, rendering, inputs.inference, inputs.blueprint);
              var approval := Approval(svc.engine, settings, rendering, inputs.inference, inputs.blueprint);
              // The table write happens, or fails silently, whatever follows.
              && svc.jobs == AfterUpdate(old(svc.jobs), svc.writesAccepted, update)
              && (approval.Failure? ==>
                    && out == Raised(approval.error)
                    && svc.outbox == old(svc.outbox)
                    && svc.calls == old(svc.calls) + (if update.Some? then [update.value] else [])
                                    + (if query.Some? then [QueryEngine(query.value)] else []))
              && (approval.Success? ==>
                    var event := CompletedEvent(rendering, inputs.jobId, inputs.inference, approval.value);
                    && out == Returned(200, inputs.inference)
                    && svc.outbox == old(svc.outbox) + [event]
                    && svc.calls == old(svc.calls) + (if update.Some? then [update.value] else [])
                                    + [QueryEngine(query.value), PublishEvent(event)])
  {
    var read := ReadInputs(svc.blobs, event);
    if read.Failure? {
      return Raised(read.error);
    }
    var inputs := read.value;
    UpdateInDynamodb(svc, settings, rendering, inputs.jobId, inputs.objectKey, inputs.jobStatus,
                     inputs.inference, inputs.blueprint);
    // Computed and logged only.
    var confidenceResults := Explainability.ProcessExplainabilityInfo(inputs.document);
    var approval := ValidateBenefitClaim(svc, settings, rendering, inputs.inference, inputs.blueprint);
    if approval.Failure? {
      return Raised(approval.error);
    }
    svc.PutEvent(CompletedEvent(rendering, inputs.jobId, inputs.inference, approval.value));
    out := Returned(200, inputs.inference);
  }
}
