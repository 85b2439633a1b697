/** The submission Lambda (infrastructure/extraction/app.py): on an upload
    event it starts one asynchronous automation job for the uploaded object
    and records the job in the table with status `STARTED`. */
module ExtractionHandler {
  import opened Wrappers
  import opened JsonValue
  import opened Locations
  import opened JobStore
  import opened Cloud
  import opened Lambda

  const LiveStage: string := "LIVE"

  /** `event['Records'][0]['s3']`, then `['bucket']['name']` and `['object']['key']`. */
  function ReadUpload(event: Json): (r: Option<(Json, Json)>)
    ensures r.Some? <==>
              && Subscript(event, "Records").Some?
              && First(Subscript(event, "Records").value).Some?
              && var s3 := Subscript(First(Subscript(event, "Records").value).value, "s3");
              && s3.Some?
              && Subscript(s3.value, "bucket").Some?
              && Subscript(s3.value, "object").Some?
              && Subscript(s3.value.fields["bucket"], "name").Some?
              && Subscript(s3.value.fields["object"], "key").Some?
    ensures r.Some? ==>
              var s3 := event.fields["Records"].items[0].fields["s3"];
              r.value == (s3.fields["bucket"].fields["name"], s3.fields["object"].fields["key"])
  {
    match Subscript(event, "Records")
    case None => None
    case Some(records) =>
      match First(records)
      case None => None
      case Some(record) =>
        match Subscript(record, "s3")
        case None => None
        case Some(s3) =>
          match (Subscript(s3, "bucket"), Subscript(s3, "object"))
          case (Some(bucketEntry), Some(objectEntry)) =>
            (match (Subscript(bucketEntry, "name"), Subscript(objectEntry, "key"))
             case (Some(bucket), Some(key)) => Some((bucket, key))
             case _ => None)
          case _ => None
  }

  /** The job request for an uploaded object: its own URI as input, the
      `output` prefix of the extraction bucket as output, the live stage,
      completion notification through EventBridge, and the account's profile. */
  function JobRequest(ingestionBucket: string, key: string, extractionBucket: string,
                      projectArn: string, profileArn: string): (req: AutomationRequest)
    ensures req.inputUri == S3Uri(ingestionBucket, key)
    ensures req.outputUri == S3Uri(extractionBucket, "output")
    ensures req.stage == LiveStage && req.eventBridgeEnabled
    ensures req.projectArn == projectArn && req.profileArn == profileArn
  {
    AutomationRequest("s3://" + ingestionBucket + "/" + key, OutputUri(extractionBucket),
                      projectArn, LiveStage, true, profileArn)
  }

  /** `store_in_dynamodb(invocation_arn, object_key, bucket_name, status)`:
      a failure is logged and raised again. */
  method StoreInDynamodb(svc: Services, settings: Settings, invocationArn: string, objectKey: string,
                         bucket: string, status: string) returns (ok: bool)
    modifies svc
    ensures ok == (settings.tableName.Some? && svc.writesAccepted)
    ensures var item := StartedItem(invocationArn, objectKey, bucket, status);
            && svc.jobs == (if ok then Put(old(svc.jobs), item) else old(svc.jobs))
            && svc.calls == old(svc.calls) + (if settings.tableName.Some? then [PutJobItem(item)] else [])
    ensures svc.outbox == old(svc.outbox)
  {
    if settings.tableName.None? {
      // The client refuses a missing table name before sending.
      return false;
    }
    ok := svc.PutItem(StartedItem(invocationArn, objectKey, bucket, status));
  }

  /** `lambda_handler(event, context)`. */
  method LambdaHandler(svc: Services, settings: Settings, profileArn: string, event: Json) returns (out: Outcome)
    modifies svc
    ensures svc.outbox == old(svc.outbox)
    // Reading the upload event happens outside the `try`: its errors escape.
    ensures ReadUpload(event).None? ==>
              out == Raised(BadEvent) && svc.jobs == old(svc.jobs) && svc.calls == old(svc.calls)
    ensures ReadUpload(event).Some? ==>
              var (bucket, key) := ReadUpload(event).value;
              // Every failure inside the `try` becomes a 500 response.
              && (out.ReturnedError? || out.ReturnedNothing?)
              && (out.ReturnedError? ==> out.statusCode == 500)
              && (!bucket.JString? || !key.JString? ==>
                    out == ReturnedError(500, BadEvent) && svc.jobs == old(svc.jobs) && svc.calls == old(svc.calls))
              && (bucket.JString? && key.JString? &&
                  (settings.extractionBucket.None? || settings.projectArn.None?) ==>
                    out == ReturnedError(500, MissingSetting) && svc.jobs == old(svc.jobs) && svc.calls == old(svc.calls))
              && (bucket.JString? && key.JString? &&
                  settings.extractionBucket.Some? && settings.projectArn.Some? ==>
                    var request := JobRequest(bucket.s, key.s, settings.extractionBucket.value,
                                              settings.projectArn.value, profileArn);
                    match svc.automation(request)
                    // Exactly one job is requested; nothing is stored when it is refused.
                    case None =>
                      && out == ReturnedError(500, InvocationFailed)
                      && svc.jobs == old(svc.jobs)
                      && svc.calls == old(svc.calls) + [StartJob(request)]
                    // The item is written only after the job has started.
                    case Some(arn) =>
                      var item := StartedItem(arn, key.s, bucket.s, StatusStarted);
                      && svc.calls == old(svc.calls) + [StartJob(request)]
                                      + (if settings.tableName.Some? then [PutJobItem(item)] else [])
                      && (if settings.tableName.Some? && svc.writesAccepted
                          then out == ReturnedNothing && svc.jobs == Put(old(svc.jobs), item)
                          else out == ReturnedError(500, StoreFailed) && svc.jobs == old(svc.jobs)))
  {
    var upload := ReadUpload(event);
    if upload.None? {
      return Raised(BadEvent);
    }
    var (ingestionBucket, key) := upload.value;
    // try:
    if !ingestionBucket.JString? || !key.JString? {
      // `"s3://" + ingestion_bucket + "/" + key` is a TypeError.
      return ReturnedError(500, BadEvent);
    }
    if settings.extractionBucket.None? {
      // `"s3://" + None` is a TypeError.
      return ReturnedError(500, MissingSetting);
    }
    if settings.projectArn.None? {
      // The client refuses a missing project ARN before sending.
      return ReturnedError(500, MissingSetting);
    }
    var request := JobRequest(ingestionBucket.s, key.s, settings.extractionBucket.value,
                              settings.projectArn.value, profileArn);
    var invocationArn := svc.InvokeAutomation(request);
    if invocationArn.None? {
      return ReturnedError(500, InvocationFailed);
    }
    var stored := StoreInDynamodb(svc, settings, invocationArn.value, key.s, ingestionBucket.s, StatusStarted);
    if !stored {
      return ReturnedError(500, StoreFailed);
    }
    out := ReturnedNothing;
  }

  /** The item recorded for a job points at the very object the job reads:
      its `filePath` is the job's input URI, and the object's bucket and key
      can be read back from it. */
  lemma StoredPathIsJobInput(ingestionBucket: string, key: string, extractionBucket: string,
                             projectArn: string, profileArn: string, invocationArn: string)
    requires '/' !in ingestionBucket
    ensures var request := JobRequest(ingestionBucket, key, extractionBucket, projectArn, profileArn);
            var item := StartedItem(invocationArn, key, ingestionBucket, StatusStarted);
            && item["filePath"] == request.inputUri
            && ParseS3Uri(item["filePath"]) == Some((ingestionBucket, key))
  {
    ParseS3UriRoundTrip(ingestionBucket, key);
  }
}
