/** The DynamoDB job table as a keyed store: items are attribute maps of
    string (`S`) values, keyed by `(invocationId, fileName)`. The submission
    handler writes a whole item with `put_item`; the validation handler sets
    three attributes with `update_item`. Neither write is conditional. */
module JobStore {
  import opened Locations

  /** The table's primary key: partition key `invocationId`, sort key `fileName`. */
  datatype JobKey = JobKey(invocationId: string, fileName: string)

  /** One item: attribute name to string value. */
  type Item = map<string, string>

  type Table = map<JobKey, Item>

  const StatusStarted: string := "STARTED"

  /** The attributes the validation handler's `SET` expression names. */
  const UpdatedAttributes: set<string> := {"status", "inferenceResult", "bluePrintName"}

  /** An item carries its own key attributes. */
  predicate HasKeyAttributes(item: Item)
  {
    "invocationId" in item && "fileName" in item
  }

  function KeyOf(item: Item): JobKey
    requires HasKeyAttributes(item)
  {
    JobKey(item["invocationId"], item["fileName"])
  }

  /** Every item is stored under the key its own key attributes name. */
  predicate WellKeyed(t: Table)
  {
    forall k :: k in t ==> HasKeyAttributes(t[k]) && KeyOf(t[k]) == k
  }

  /** The item `store_in_dynamodb` writes for an invocation ARN, the uploaded
      object's key and bucket, and a status. */
  function StartedItem(invocationArn: string, objectKey: string, bucket: string, status: string): (item: Item)
    ensures item.Keys == {"invocationId", "invocationArn", "fileName", "filePath", "status"}
    ensures HasKeyAttributes(item) && KeyOf(item) == JobKey(InvocationId(invocationArn), objectKey)
    ensures item["invocationArn"] == invocationArn
    ensures item["filePath"] == S3Uri(bucket, objectKey)
    ensures item["status"] == status
  {
    map[
      "invocationId" := InvocationId(invocationArn),
      "invocationArn" := invocationArn,
      "fileName" := objectKey,
      "filePath" := "s3://" + bucket + "/" + objectKey,
      "status" := status
    ]
  }

  /** `put_item`: the item replaces whatever the table held under its key. */
  function Put(t: Table, item: Item): (t': Table)
    requires HasKeyAttributes(item)
    ensures t'.Keys == t.Keys + {KeyOf(item)}
    ensures KeyOf(item) in t' && t'[KeyOf(item)] == item
    ensures WellKeyed(t) ==> WellKeyed(t')
    ensures forall k :: k in t && k != KeyOf(item) ==> t'[k] == t[k]
  {
    t[KeyOf(item) := item]
  }

  /** The item `update_item` starts from: the stored one, or, when no item has
      the key, a new item holding only the key attributes. */
  function Existing(t: Table, k: JobKey): Item
  {
    if k in t then t[k] else map["invocationId" := k.invocationId, "fileName" := k.fileName]
  }

  /** `update_item` with `SET status, inferenceResult, bluePrintName`: no
      condition on the current item, and an absent item is created. */
  function Update(t: Table, k: JobKey, status: string, inferenceResult: string, bluePrintName: string): (t': Table)
    ensures t'.Keys == t.Keys + {k}
    ensures WellKeyed(t) ==> WellKeyed(t')
    ensures k in t' && UpdatedAttributes <= t'[k].Keys
    ensures t'[k]["status"] == status
    ensures t'[k]["inferenceResult"] == inferenceResult
    ensures t'[k]["bluePrintName"] == bluePrintName
    ensures t'[k].Keys == Existing(t, k).Keys + UpdatedAttributes
    ensures forall a :: a in Existing(t, k) && a !in UpdatedAttributes ==> t'[k][a] == Existing(t, k)[a]
    ensures forall k' :: k' in t && k' != k ==> t'[k'] == t[k']
  {
    t[k := Existing(t, k)["status" := status]["inferenceResult" := inferenceResult]["bluePrintName" := bluePrintName]]
  }

  /** A second update of the same item overrides the first entirely: there is
      no guard on the current status, so the last writer wins. */
  lemma LastUpdateWins(t: Table, k: JobKey, s1: string, r1: string, b1: string,
                       s2: string, r2: string, b2: string)
    ensures Update(Update(t, k, s1, r1, b1), k, s2, r2, b2) == Update(t, k, s2, r2, b2)
  {
    var once := Update(t, k, s1, r1, b1);
    var twice := Update(once, k, s2, r2, b2);
    var direct := Update(t, k, s2, r2, b2);
    assert twice[k] == direct[k];
  }

  /** Delivering the same completion twice leaves the table as once. */
  lemma UpdateIdempotent(t: Table, k: JobKey, status: string, inferenceResult: string, bluePrintName: string)
    ensures Update(Update(t, k, status, inferenceResult, bluePrintName), k, status, inferenceResult, bluePrintName)
            == Update(t, k, status, inferenceResult, bluePrintName)
  {
    LastUpdateWins(t, k, status, inferenceResult, bluePrintName, status, inferenceResult, bluePrintName);
  }

  /** Updates of different jobs commute: arrival order does not matter. */
  lemma UpdatesCommute(t: Table, k1: JobKey, s1: string, r1: string, b1: string,
                       k2: JobKey, s2: string, r2: string, b2: string)
    requires k1 != k2
    ensures Update(Update(t, k1, s1, r1, b1), k2, s2, r2, b2)
            == Update(Update(t, k2, s2, r2, b2), k1, s1, r1, b1)
  {
    var a := Update(Update(t, k1, s1, r1, b1), k2, s2, r2, b2);
    var b := Update(Update(t, k2, s2, r2, b2), k1, s1, r1, b1);
    assert a[k1] == b[k1];
    assert a[k2] == b[k2];
  }

  /** A second put for the same key replaces the first item entirely. */
  lemma PutOverwrites(t: Table, first: Item, second: Item)
    requires HasKeyAttributes(first) && HasKeyAttributes(second)
    requires KeyOf(first) == KeyOf(second)
    ensures Put(Put(t, first), second) == Put(t, second)
  {
  }

  /** A put followed by the validation update of the same job: the item keeps
      the ARN and file path written at submission and takes the three new
      attributes, whatever status it had. */
  lemma SubmitThenValidate(t: Table, invocationArn: string, objectKey: string, bucket: string,
                           status: string, inferenceResult: string, bluePrintName: string)
    ensures var item := StartedItem(invocationArn, objectKey, bucket, StatusStarted);
            var k := KeyOf(item);
            var t' := Update(Put(t, item), k, status, inferenceResult, bluePrintName);
            && t'[k].Keys == item.Keys + {"inferenceResult", "bluePrintName"}
            && t'[k]["invocationArn"] == invocationArn
            && t'[k]["filePath"] == S3Uri(bucket, objectKey)
            && t'[k]["status"] == status
            && t'[k]["inferenceResult"] == inferenceResult
            && t'[k]["bluePrintName"] == bluePrintName
  {
    var item := StartedItem(invocationArn, objectKey, bucket, StatusStarted);
    var k := KeyOf(item);
    assert Existing(Put(t, item), k) == item;
  }
}
