/** The extraction-completion Lambda (infrastructure/extraction/app_eventbridge.py):
    on a job-completion event it reads the result document, computes the
    confidence mapping for the log, and returns the inference result. It is
    given the collaborators without the right to modify them, so it writes
    no table item and publishes no event. */
module CompletionHandler {
  import opened Wrappers
  import opened JsonValue
  import opened Cloud
  import opened Lambda
  import Explainability

  /** `lambda_handler(event, context)`. */
  method LambdaHandler(svc: Services, event: Json) returns (out: Outcome)
    ensures out.Returned? <==>
              && ReadJobEvent(event).Some?
              && FetchResult(svc.blobs, ReadJobEvent(event).value).Success?
              && Subscript(FetchResult(svc.blobs, ReadJobEvent(event).value).value, "inference_result").Some?
    // The body is the document's `inference_result`, whatever its explainability section holds.
    ensures out.Returned? ==>
              && out.statusCode == 200
              && Some(out.body) == Subscript(FetchResult(svc.blobs, ReadJobEvent(event).value).value, "inference_result")
    ensures ReadJobEvent(event).None? ==> out == Raised(BadEvent)
    ensures ReadJobEvent(event).Some? && FetchResult(svc.blobs, ReadJobEvent(event).value).Failure? ==>
              out == Raised(FetchResult(svc.blobs, ReadJobEvent(event).value).error)
    // A document without `inference_result` is an uncaught KeyError.
    ensures ReadJobEvent(event).Some? && FetchResult(svc.blobs, ReadJobEvent(event).value).Success?
            && Subscript(FetchResult(svc.blobs, ReadJobEvent(event).value).value, "inference_result").None? ==>
              out == Raised(BadResult)
  {
    var job := ReadJobEvent(event);
    if job.None? {
      return Raised(BadEvent);
    }
    var fetched := FetchResult(svc.blobs, job.value);
    if fetched.Failure? {
      return Raised(fetched.error);
    }
    var results := Subscript(fetched.value, "inference_result");
    if results.None? {
      return Raised(BadResult);
    }
    // Computed and logged only.
    var confidenceResults := Explainability.ProcessExplainabilityInfo(fetched.value);
    out := Returned(200, results.value);
  }
}
