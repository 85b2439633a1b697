/** The collaborators the handlers talk to. The job table and the event bus
    are state the handlers change; blob storage, the automation engine and
    the decision engine are fixed oracles. Every request sent to the job
    table, the automation engine, the decision engine and the event bus is
    appended to `calls`, so the order of those requests can be stated. The
    blob-storage read is a lookup in the `blobs` oracle and is not logged. */
module Cloud {
  import opened Wrappers
  import opened JsonValue
  import opened JobStore
  import opened Decision

  /** `invoke_data_automation_async`'s parameters. */
  datatype AutomationRequest = AutomationRequest(
    inputUri: string,
    outputUri: string,
    projectArn: string,
    stage: string,
    eventBridgeEnabled: bool,
    profileArn: string)

  /** `retrieve_and_generate`'s parameters: the prompt and the knowledge base
      configuration. */
  datatype DecisionRequest = DecisionRequest(inputText: string, knowledgeBaseId: string, modelArn: string)

  /** One EventBridge entry. `detail` is the JSON text of the detail object. */
  datatype BusEvent = BusEvent(source: string, detailType: string, detail: string)

  /** A request sent to a collaborator. */
  datatype Call =
    | StartJob(job: AutomationRequest)
    | PutJobItem(item: Item)
    | UpdateJobItem(key: JobKey, status: string, inferenceResult: string, bluePrintName: string)
    | QueryEngine(query: DecisionRequest)
    | PublishEvent(event: BusEvent)

  class Services {
    /** The DynamoDB job table. */
    var jobs: Table
    /** Every entry ever handed to `put_events`, oldest first. */
    var outbox: seq<BusEvent>
    /** Every logged request (all but the blob-storage read), oldest first. */
    var calls: seq<Call>

    /** Whether DynamoDB accepts writes (it may reject any of them). */
    const writesAccepted: bool
    /** `get_object` followed by UTF-8 decoding and `json.loads`: the parsed
        document at a bucket and key, or `None` when any of those raises. */
    const blobs: (string, string) -> Option<Json>
    /** The automation engine: the `invocationArn` of the started job, or
        `None` when the call raises or answers without one. */
    const automation: AutomationRequest -> Option<string>
    /** The decision engine: its reply, or `None` when the call raises. */
    const engine: DecisionRequest -> Option<Reply>

    constructor (jobs: Table, writesAccepted: bool, blobs: (string, string) -> Option<Json>,
                 automation: AutomationRequest -> Option<string>, engine: DecisionRequest -> Option<Reply>)
      ensures this.jobs == jobs && outbox == [] && calls == []
      ensures this.writesAccepted == writesAccepted && this.blobs == blobs
      ensures this.automation == automation && this.engine == engine
    {
      this.jobs := jobs;
      this.outbox := [];
      this.calls := [];
      this.writesAccepted := writesAccepted;
      this.blobs := blobs;
      this.automation := automation;
      this.engine := engine;
    }

    /** `put_item` of a whole item, unconditionally. */
    method PutItem(item: Item) returns (ok: bool)
      requires HasKeyAttributes(item)
      modifies this
      ensures ok == writesAccepted
      ensures jobs == if ok then Put(old(jobs), item) else old(jobs)
      ensures outbox == old(outbox) && calls == old(calls) + [PutJobItem(item)]
    {
      calls := calls + [PutJobItem(item)];
      ok := writesAccepted;
      if ok {
        jobs := Put(jobs, item);
      }
    }

    /** `update_item` setting the three attributes, unconditionally. */
    method UpdateItem(key: JobKey, status: string, inferenceResult: string, bluePrintName: string)
      returns (ok: bool)
      modifies this
      ensures ok == writesAccepted
      ensures jobs == if ok then Update(old(jobs), key, status, inferenceResult, bluePrintName) else old(jobs)
      ensures outbox == old(outbox)
      ensures calls == old(calls) + [UpdateJobItem(key, status, inferenceResult, bluePrintName)]
    {
      calls := calls + [UpdateJobItem(key, status, inferenceResult, bluePrintName)];
      ok := writesAccepted;
      if ok {
        jobs := Update(jobs, key, status, inferenceResult, bluePrintName);
      }
    }

    /** `put_events` with one entry. */
    method PutEvent(event: BusEvent)
      modifies this
      ensures jobs == old(jobs)
      ensures outbox == old(outbox) + [event]
      ensures calls == old(calls) + [PublishEvent(event)]
    {
      calls := calls + [PublishEvent(event)];
      outbox := outbox + [event];
    }

    /** `invoke_data_automation_async`. */
    method InvokeAutomation(request: AutomationRequest) returns (invocationArn: Option<string>)
      modifies this
      ensures invocationArn == automation(request)
      ensures jobs == old(jobs) && outbox == old(outbox)
      ensures calls == old(calls) + [StartJob(request)]
    {
      calls := calls + [StartJob(request)];
      invocationArn := automation(request);
    }

    /** `retrieve_and_generate`. */
    method RetrieveAndGenerate(request: DecisionRequest) returns (reply: Option<Reply>)
      modifies this
      ensures reply == engine(request)
      ensures jobs == old(jobs) && outbox == old(outbox)
      ensures calls == old(calls) + [QueryEngine(request)]
    {
      calls := calls + [QueryEngine(request)];
      reply := engine(request);
    }
  }
}
