# Benefit-claim document pipeline: a Dafny model of its deterministic core

The repository runs three AWS Lambda handlers around Amazon Bedrock Data
Automation (the automation engine), DynamoDB (the job table), EventBridge (the
event bus) and a Bedrock knowledge base (the decision engine):

- **Submission** (`infrastructure/extraction/app.py`). An S3 upload event
  starts one asynchronous automation job. The job's input is the uploaded
  object's URI and its output is the `output` prefix of the extraction bucket.
  The handler then writes an item with status `STARTED`, keyed by the job's
  invocation id and the object key.
- **Extraction completion** (`infrastructure/extraction/app_eventbridge.py`).
  A job-completion event leads the handler to read the job's result document.
  It computes the per-field confidence mapping, which is only logged, and
  returns the inference result.
- **Validation** (`infrastructure/validation/app.py`). The handler reads the
  same result document and sets `status`, `inferenceResult` and
  `bluePrintName` on the job's item. It then asks the decision engine whether
  the claim should be approved, using one of three prompt wordings chosen by
  the matched blueprint. Finally it publishes a "Benefit Claim Validation
  Completed" event.

What the model contains:

- JSON documents are a `Json` datatype.
- The Python operations the handlers apply to documents (`d[k]`, `d[0]`,
  `x in d`) are functions. Each returns `None` exactly where Python raises.
- `process_explainability_info` is a loop proved equal to a reference
  function. That function is then characterised exactly.
- The job table is a map from `JobKey(invocationId, fileName)` to an
  attribute map. `put_item` and `update_item` are functions on that map.
- The collaborators are a class `Cloud.Services`:
  - the job table and the event outbox are fields the handlers change;
  - `calls` is a field that logs, in order, every request sent to the job
    table, the automation engine, the decision engine and the event bus;
    the blob-storage read is an oracle lookup and is not logged;
  - blob storage, the automation engine and the decision engine are
    function-valued oracles.
- Each handler is a method over these collaborators. Its postcondition says:
  - what it returns or raises;
  - what the table becomes;
  - what it publishes;
  - in which order it sent its logged requests.

The model follows the code as written, including where it departs from
what a job-tracking pipeline would usually do:

- **No guard on the update.** An idempotent completion would need an
  update guarded on status `STARTED`. The code issues an unconditional
  `update_item`, so a later completion for the same job overwrites the earlier one
  (`JobStore.LastUpdateWins`). An update for a key with no item creates that
  item (`JobStore.Existing`).
- **No existence check on the put.** A create that refuses an existing key
  would need a condition on the put. The code issues an unconditional
  `put_item`, which replaces the existing item (`JobStore.PutOverwrites`).
- **Status value.** The status written at validation is the event's
  `job_status` as received (for example `SUCCESS`), not `COMPLETED`.
- **Reply parsing.** The decision engine's reply is never parsed for
  `decision` or `reason`. Its text is forwarded verbatim.

Both copies of `process_explainability_info` have the same text:

- infrastructure/validation/app.py:114-151
- infrastructure/extraction/app_eventbridge.py:76-113

One member, `Explainability.ProcessExplainabilityInfo`, models both. So the
two copies agree on every input by construction. The rows below cite each
copy for the properties proved about it.

## Model

| member | source | states |
|---|---|---|
| `Locations.ResultKey` | infrastructure/validation/app.py:69-70 | The result-object key starts with the output path and ends with `/custom_output/0/result.json`. Its length is the sum of the two, so it is exactly their concatenation. |
| `Locations.ResultKeyInjective` | infrastructure/extraction/app_eventbridge.py:56-57 | Two output paths with the same result-object key are equal. |
| `Locations.S3Uri` | infrastructure/extraction/app.py:64 | `s3://bucket/key` starts with the scheme, ends with the key, and has length scheme + bucket + 1 + key. |
| `Locations.OutputUri` | infrastructure/extraction/app.py:65 | The job output location is the URI of key `output` in the extraction bucket. |
| `Locations.ParseS3UriRoundTrip` | infrastructure/extraction/app.py:122 | For a bucket without `/`, reading back a built URI gives the same bucket and key. |
| `Locations.ParseS3UriSound` | infrastructure/extraction/app.py:64 | Every URI that reads back is rebuilt exactly from its bucket and key. |
| `Locations.InvocationId` | infrastructure/extraction/app.py:112 | `arn.split('/')[-1]` is a suffix of the ARN and has no `/`. When shorter than the ARN, it is preceded by `/`. When the ARN has no `/`, it is the whole ARN. |
| `Locations.InvocationIdSplits` | infrastructure/extraction/app.py:112 | An ARN containing `/` is its text up to the last `/`, then `/`, then the invocation id. |
| `JsonValue.Subscript` | infrastructure/validation/app.py:119 | `container[key]` with a string key answers exactly when the container is a dict holding the key, and then gives that member. Every other container, and a missing key, raises. |
| `JsonValue.First` | infrastructure/validation/app.py:119 | `container[0]` answers exactly for a non-empty list, giving its first element, or a non-empty string, giving its first character. Everything else raises. |
| `JsonValue.Contains` | infrastructure/validation/app.py:125-133 | `tag in container` raises exactly for null, booleans and numbers. It is key membership for a dict, element membership of the string for a list, and substring search for a string. |
| `Explainability.Section` | infrastructure/validation/app.py:119 | `json_response['explainability_info'][0]` gives a field map exactly when the document is a dict whose `explainability_info` is a non-empty list starting with a dict. In every other case it gives `None`. |
| `Explainability.FieldRaisesExactly` | infrastructure/validation/app.py:123-134 | Field data never raises when it is a dict, and always raises when it is null, a boolean or a number. A list or string raises exactly when `confidence`, `success` or `value` is "in" it; otherwise it is skipped. |
| `Explainability.CopyIfPresent` | infrastructure/validation/app.py:124-134 | One `if tag in data: results[f"{field}_{tag}"] = data[tag]` step. It succeeds exactly when it does not raise, and adds the entry exactly when the tag is present. |
| `Explainability.KeepConfidence` | infrastructure/validation/app.py:142 | The filter keeps exactly the entries whose key ends in `_confidence`, with their values. |
| `Explainability.ProcessExplainabilityInfo` | infrastructure/validation/app.py:114-151 | After the lookup of the section, which gives `None` wherever it raises, the function returns the reference mapping `ConfidenceScores(doc)`. |
| `Explainability.CollectConfidence` | infrastructure/extraction/app_eventbridge.py:85-106 | The loop, visiting fields in any order, then the filter, give `None` when some field raises and otherwise the reference mapping of all fields. The loop invariant says the kept part of `results` is the reference mapping of the fields visited so far. |
| `Explainability.CopyField` | infrastructure/validation/app.py:123-134 | One turn of the loop fails exactly when the field's data makes one of the three copies raise. Otherwise the kept `_confidence` entries grow by exactly that field's confidence entry, if it has one. |
| `Explainability.ConfidenceScoresExact` | infrastructure/extraction/app_eventbridge.py:81-106 | On a well-formed section, key `f + "_confidence"` is present exactly for the fields `f` whose data carries a confidence, and maps to that value. No key ends in `_success` or `_value`. |
| `Explainability.MalformedGivesNone` | infrastructure/extraction/app_eventbridge.py:108-113 | Each of these gives `None` instead of raising: a non-dict document, a missing section, an empty list, a non-dict first entry, or a field whose data is null, a boolean or a number. |
| `Explainability.DictOfDictsGivesScores` | infrastructure/validation/app.py:146-151 | When every field's data is a dict, the function never takes its `None` path. |
| `Explainability.SuffixesExclusive` | infrastructure/validation/app.py:142 | A key ending in `_confidence` ends in neither `_success` nor `_value`. |
| `JobStore.StartedItem` | infrastructure/extraction/app.py:118-124 | The stored item has exactly the attributes `invocationId`, `invocationArn`, `fileName`, `filePath` and `status`. Its key is (id from the ARN, object key), `filePath` is the object's `s3://` URI, and `status` is the given one. |
| `JobStore.Put` | infrastructure/extraction/app.py:115-125 | `put_item` stores the item under its own key, whatever was there before. Other keys are unchanged and the table stays well keyed. |
| `JobStore.PutOverwrites` | infrastructure/extraction/app.py:115-125 | A second put for the same key leaves the table as the second put alone would. |
| `JobStore.Update` | infrastructure/validation/app.py:159-182 | `update_item` sets `status`, `inferenceResult` and `bluePrintName` on the key, creating the item if absent. The item's attribute set grows only by those three, and every other attribute and every other item is unchanged. |
| `JobStore.LastUpdateWins` | infrastructure/validation/app.py:174-182 | With no status condition, a second update of the same item gives the table the second update alone would. |
| `JobStore.UpdateIdempotent` | infrastructure/validation/app.py:163 | Applying the same update twice gives the same table as applying it once. |
| `JobStore.UpdatesCommute` | infrastructure/validation/app.py:159-162 | Updates of two different keys give the same table in either order. |
| `JobStore.SubmitThenValidate` | infrastructure/validation/app.py:153-182 | After submission's put and validation's update of the same job, the item keeps `invocationArn` and `filePath` and holds the three new attributes. |
| `Decision.SelectTemplate` | infrastructure/validation/app.py:196-204 | `US-Bank-Check` selects the check wording and `Receipt` selects the receipt wording. Every other value selects the document wording. Each case is an if-and-only-if. |
| `Decision.Prompt` | infrastructure/validation/app.py:197-204 | The prompt is the selected wording's lead (ending in the literal `$`), then the claim text, then the selected wording's tail. |
| `Decision.PromptEmbedsClaim` | infrastructure/validation/app.py:197-203 | The claim text can be read back unchanged from between the lead and the tail. |
| `Decision.PromptContents` | infrastructure/validation/app.py:198-204 | Every prompt contains the claim text and the selected question, and asks for the `decision (approved/not approved/ review needed)` and `reason (...)` fields. |
| `Decision.PromptDependsOnlyOnTemplate` | infrastructure/validation/app.py:202-204 | Two blueprint names that select the same wording give the same prompt. |
| `Decision.TemplatesDiffer` | infrastructure/validation/app.py:196-201 | Different wordings give different prompts for every claim. |
| `Decision.ReplyText` | infrastructure/validation/app.py:227-238 | The result is `response["output"]["text"]` when both keys are present, and `""` otherwise. |
| `Cloud.Services.PutItem` | infrastructure/extraction/app.py:115-125 | The item is put iff the table accepts the write, and the request is logged. The outbox is unchanged. |
| `Cloud.Services.UpdateItem` | infrastructure/validation/app.py:175-182 | The three attributes are set iff the table accepts the write, and the request is logged. The outbox is unchanged. |
| `Cloud.Services.PutEvent` | infrastructure/validation/app.py:98-106 | Exactly one entry is appended to the outbox. The table is unchanged. |
| `Cloud.Services.InvokeAutomation` | infrastructure/extraction/app.py:71-94 | The result is the automation engine's `invocationArn`, and the request is logged. |
| `Cloud.Services.RetrieveAndGenerate` | infrastructure/validation/app.py:222-225 | The result is the decision engine's reply, and the query is logged. |
| `Lambda.ReadJobEvent` | infrastructure/extraction/app_eventbridge.py:39-53 | The event is read exactly when `detail`, `job_id`, `job_status`, `output_s3_location.s3_bucket` and `output_s3_location.name` are all present, and the values read are those five lookups, each in its own place. |
| `Lambda.ResultLocation` | infrastructure/validation/app.py:63-73 | The bucket and result key are the event's bucket and `ResultKey(path)`. A non-string path is a TypeError (`BadEvent`); with a string path, a non-string bucket fails the read (`ReadFailed`). |
| `Lambda.FetchResult` | infrastructure/validation/app.py:73-75 | A bad location fails as `ResultLocation` says. Otherwise the result is the document blob storage holds at the event's bucket and result key, and `ReadFailed` when there is none. |
| `ValidationHandler.ReadObjectKey` | infrastructure/validation/app.py:58 | The object key is read exactly when `detail.input_s3_object.name` is present, and it is that value. |
| `ValidationHandler.ReadInputs` | infrastructure/validation/app.py:50-81 | A missing event field raises `BadEvent`; a failed fetch raises its own failure; a document without `matched_blueprint`, its `name`, or `inference_result` raises `BadResult`. When all are present the read succeeds, and the inputs are the event's fields and the document's `matched_blueprint.name` and `inference_result`. |
| `ValidationHandler.UpdateRequest` | infrastructure/validation/app.py:153-173 | A request is sent iff the table name is set and the id, file name, status and blueprint name are strings. It is keyed by (job id, object key), and its `inferenceResult` is `json.dumps` of the result. |
| `ValidationHandler.UpdateInDynamodb` | infrastructure/validation/app.py:153-184 | The table becomes the update's result if the request was sent and accepted, and is unchanged otherwise. No error escapes. |
| `ValidationHandler.DecisionQuery` | infrastructure/validation/app.py:208-225 | A query exists exactly when both knowledge-base settings are set (`os.environ[...]` raises otherwise). It carries the knowledge-base id, the model ARN and the prompt, and that prompt contains the claim text and the selected question. |
| `ValidationHandler.Approval` | infrastructure/validation/app.py:206-241 | A missing knowledge-base setting raises `MissingSetting` before any query. When the engine call raises, the result is `DecisionFailed` (no normal return). When the engine replies, the result is that reply's text. |
| `ValidationHandler.ValidateBenefitClaim` | infrastructure/validation/app.py:186-241 | Returns `Approval`, having sent the one query exactly when both settings are present. |
| `ValidationHandler.Detail` | infrastructure/validation/app.py:92-96 | The event detail has exactly `bda_invocation_id`, `inference_result` and `validation_result`, holding the job id, the inference result and the approval text. |
| `ValidationHandler.CompletedEvent` | infrastructure/validation/app.py:98-106 | The published entry has Source `benefit-claim-validation-function`, DetailType `Benefit Claim Validation Completed`, and as Detail `json.dumps` of the detail object. |
| `ValidationHandler.LambdaHandler` | infrastructure/validation/app.py:44-112 | No logged request is sent before the event and document are read (the blob-storage read itself is not logged). Then the update request (if sent) comes first, the decision query next, and one publish last. A swallowed table failure does not stop the query or the publish. A decision failure publishes nothing, though the table write stands. Success returns 200 with `inference_result`. |
| `ExtractionHandler.ReadUpload` | infrastructure/extraction/app.py:50-51 | The upload is read exactly when `Records`, its first element, `s3`, `s3.bucket.name` and `s3.object.key` are all present, and the pair read is (`bucket.name`, `object.key`) in that order. |
| `ExtractionHandler.JobRequest` | infrastructure/extraction/app.py:64-91 | The request has input URI `s3://bucket/key`, output URI `s3://<extraction bucket>/output`, stage `LIVE`, EventBridge notification on, and the given project and profile. |
| `ExtractionHandler.StoreInDynamodb` | infrastructure/extraction/app.py:109-129 | The started item is put exactly when the table name is set and the table accepts the write. Otherwise the table is unchanged and the result reports failure. The request is sent only when the table name is set. |
| `ExtractionHandler.LambdaHandler` | infrastructure/extraction/app.py:44-107 | Event-read errors escape. Every later error becomes a 500 response. Exactly one job is requested once the URIs are built and the project ARN is set; none is requested otherwise. The item is written only after an ARN is returned. Success returns nothing. |
| `ExtractionHandler.StoredPathIsJobInput` | infrastructure/extraction/app.py:118-124 | The stored `filePath` is the job's input URI. For a bucket without `/`, it reads back to the uploaded bucket and key. |
| `CompletionHandler.LambdaHandler` | infrastructure/extraction/app_eventbridge.py:33-74 | Returns 200 with the document's `inference_result`, whatever the confidence mapping is. Event and read errors raise, and a missing `inference_result` raises. The method may not modify the collaborators, so it writes no item and publishes nothing. |

## Left out

- Loading the boto3 clients, and the STS account and region lookups that form the profile ARN. The profile ARN is a parameter.
- `get_object`, UTF-8 decoding and `json.loads`. Together they are the `blobs` oracle, which returns the parsed document or `None`.
- Logging, `print`, and the loop that prints `retrievedReferences`. Its errors are caught after the reply text is already set, so it cannot change the result.
- Python's `str()` of a dict (used in the prompt) and `json.dumps`. They are the uninterpreted functions of `Lambda.Rendering`.
- JSON number arithmetic. A JSON number is an integer (`JInt`) or a float (`JFloat`), as `json.loads` keeps them apart, and no arithmetic is done on either.
- `JsonValue.Json` floats are reals: IEEE rounding is not modelled, and the `NaN`, `Infinity` and `-Infinity` values that `json.loads` accepts are not represented.
- The order of members in a JSON object, and duplicate member names. Objects are maps, and the loop in `CollectConfidence` may visit fields in any order.
- The decision engine's behaviour and reply contents. It is an oracle. The reply is boto3's typed response with optional `output` and `text`; a non-dict `output` is not modelled.
- The constant `"type": "KNOWLEDGE_BASE"` in the decision request configuration.
- Per-entry failures reported by `put_events`, and exceptions from `put_events`. Publishing always appends to the outbox.
- The exception message text in the 500 response body, `{"error": str(e)}`. The body is represented by the failure kind.
- `ReturnValues="UPDATED_NEW"`. What `update_item` returns is unused.
- Which parameters boto3 refuses. This is modelled only as "a missing table name or project ARN, or a non-string key, attribute or bucket, is refused before sending".
- Per-request refusal by the job table. One constant, `Cloud.Services.writesAccepted`, decides whether the table accepts writes, so the model cannot refuse one request while accepting another (for example, DynamoDB refusing an empty-string key attribute). Each handler writes at most once, so no handler's behaviour depends on this.
- Concurrency and at-least-once delivery. Each handler runs to completion on its own, and the only shared state is the job table.
- infrastructure/integration/app.py (the SNS notification handler) and frontend/app.py (the upload UI) are not part of this model.
