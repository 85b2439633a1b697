/** What the three Lambda handlers share: their outcomes, their settings,
    the opaque text renderers, and the reading of a job-completion event and
    of the result document it points to. */
module Lambda {
  import opened Wrappers
  import opened JsonValue
  import opened Locations

  /** Why a handler did not complete normally. */
  datatype Failure =
    | BadEvent          // a key missing from, or a value of the wrong type in, the incoming event
    | ReadFailed        // the result object could not be read or parsed
    | BadResult         // the result document lacks a key the handler reads
    | MissingSetting    // an environment setting the code needs is absent
    | InvocationFailed  // the automation engine refused the job
    | StoreFailed       // the job table refused the write
    | DecisionFailed    // the decision engine raised

  /** How a handler invocation ends. */
  datatype Outcome =
    | Returned(statusCode: int, body: Json)                // `return {'statusCode': ..., 'body': ...}`
    | ReturnedError(statusCode: int, failure: Failure)     // a returned error response with `{"error": str(e)}` as body
    | ReturnedNothing                                      // falls off the end: the caller sees `None`
    | Raised(failure: Failure)                             // an exception leaves the handler

  /** The environment variables the handlers read; each may be unset. */
  datatype Settings = Settings(
    tableName: Option<string>,            // BDA_TABLE_NAME
    knowledgeBaseId: Option<string>,      // KNOWLEDGE_BASE_ID
    knowledgeBaseModelId: Option<string>, // KNOWLEDGE_BASE_MODEL_ID
    projectArn: Option<string>,           // BDA_PROJECT_ARN
    extractionBucket: Option<string>)     // EXTRACTION_BUCKET_NAME

  /** Python's `str()` of a parsed value and `json.dumps`, left uninterpreted. */
  datatype Rendering = Rendering(str: Json -> string, dumps: Json -> string)

  /** The fields of a job-completion event both completion handlers read. */
  datatype JobEvent = JobEvent(jobId: Json, jobStatus: Json, bucket: Json, outputPath: Json)

  /** `event['detail']` and, below it, `job_id`, `job_status` and
      `output_s3_location['s3_bucket']` and `['name']`; `None` when any lookup raises. */
  function ReadJobEvent(event: Json): (r: Option<JobEvent>)
    ensures r.Some? <==>
              && Subscript(event, "detail").Some?
              && var detail := Subscript(event, "detail").value;
              && Subscript(detail, "job_id").Some?
              && Subscript(detail, "job_status").Some?
              && Subscript(detail, "output_s3_location").Some?
              && Subscript(detail.fields["output_s3_location"], "s3_bucket").Some?
              && Subscript(detail.fields["output_s3_location"], "name").Some?
    ensures r.Some? ==>
              var detail := event.fields["detail"];
              var location := detail.fields["output_s3_location"];
              r.value == JobEvent(detail.fields["job_id"], detail.fields["job_status"],
                                  location.fields["s3_bucket"], location.fields["name"])
  {
    match Subscript(event, "detail")
    case None => None
    case Some(detail) =>
      match (Subscript(detail, "job_id"), Subscript(detail, "job_status"), Subscript(detail, "output_s3_location"))
      case (Some(jobId), Some(jobStatus), Some(location)) =>
        (match (Subscript(location, "s3_bucket"), Subscript(location, "name"))
         case (Some(bucket), Some(path)) => Some(JobEvent(jobId, jobStatus, bucket, path))
         case _ => None)
      case _ => None
  }

  /** Where the result object is: the output path must be a string for the
      key concatenation (a TypeError otherwise), and the bucket a string for
      `get_object` (whose parameter check raises otherwise). */
  function ResultLocation(job: JobEvent): (r: Result<(string, string), Failure>)
    ensures r.Success? <==> job.outputPath.JString? && job.bucket.JString?
    ensures r.Success? ==> r.value == (job.bucket.s, ResultKey(job.outputPath.s))
    ensures !job.outputPath.JString? ==> r == Failure(BadEvent)
    ensures job.outputPath.JString? && !job.bucket.JString? ==> r == Failure(ReadFailed)
  {
    if !job.outputPath.JString? then Failure(BadEvent)
    else if !job.bucket.JString? then Failure(ReadFailed)
    else Success((job.bucket.s, ResultKey(job.outputPath.s)))
  }

  /** The parsed result document the event points to: a bad location fails
      as `ResultLocation` says, and a missing or unreadable object is `ReadFailed`. */
  function FetchResult(blobs: (string, string) -> Option<Json>, job: JobEvent): (r: Result<Json, Failure>)
    ensures ResultLocation(job).Failure? ==> r == Failure(ResultLocation(job).error)
    ensures ResultLocation(job).Success? ==>
              var (bucket, key) := ResultLocation(job).value;
              && (blobs(bucket, key).Some? ==> r == Success(blobs(bucket, key).value))
              && (blobs(bucket, key).None? ==> r == Failure(ReadFailed))
  {
    match ResultLocation(job)
    case Failure(e) => Failure(e)
    case Success(location) =>
      match blobs(location.0, location.1)
      case None => Failure(ReadFailed)
      case Some(doc) => Success(doc)
  }
}
