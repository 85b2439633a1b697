/** The object keys, storage URIs and job identifiers the handlers derive
    from plain strings. */
module Locations {
  import opened Wrappers
  import opened Text

  /** Where the automation engine writes a job's first custom result,
      below the job's output path (validation/app.py and app_eventbridge.py). */
  const ResultSuffix: string := "/custom_output/0/result.json"

  const S3Scheme: string := "s3://"

  /** The key of the result object of the job whose output path is given:
      the path itself, then the fixed suffix, and nothing else. */
  function ResultKey(outputPath: string): (key: string)
    ensures StartsWith(key, outputPath)
    ensures EndsWith(key, ResultSuffix)
    ensures |key| == |outputPath| + |ResultSuffix|
  {
    StartsWithConcat(outputPath, ResultSuffix);
    EndsWithConcat(outputPath, ResultSuffix);
    outputPath + ResultSuffix
  }

  /** Distinct output paths never share a result object. */
  lemma ResultKeyInjective(path1: string, path2: string)
    requires ResultKey(path1) == ResultKey(path2)
    ensures path1 == path2
  {
    ConcatCancel(path1, path2, ResultSuffix);
  }

  /** `s3://bucket/key`, the URI of one object. */
  function S3Uri(bucket: string, key: string): (uri: string)
    ensures StartsWith(uri, S3Scheme)
    ensures EndsWith(uri, key)
    ensures |uri| == |S3Scheme| + |bucket| + 1 + |key|
  {
    StartsWithConcat(S3Scheme, bucket + "/" + key);
    EndsWithConcat(S3Scheme + bucket + "/", key);
    S3Scheme + bucket + "/" + key
  }

  /** The output location handed to the automation engine: the `output`
      prefix of the extraction bucket. */
  function OutputUri(extractionBucket: string): (uri: string)
    ensures uri == S3Uri(extractionBucket, "output")
  {
    "s3://" + extractionBucket + "/output"
  }

  /** The index of the first occurrence of `c` in `s`. */
  function FirstIndexOf(s: string, c: char): (r: Option<nat>)
    ensures r.None? <==> c !in s
    ensures r.Some? ==> r.value < |s| && s[r.value] == c && c !in s[..r.value]
  {
    if |s| == 0 then None
    else if s[0] == c then Some(0)
    else
      match FirstIndexOf(s[1..], c)
      case None => None
      case Some(i) =>
        assert s[..i + 1] == [s[0]] + s[1..][..i];
        Some(i + 1)
  }

  /** Reads a URI of the form `s3://bucket/key` back into its bucket and key:
      the bucket ends at the first `/` after the scheme. */
  function ParseS3Uri(uri: string): (r: Option<(string, string)>)
    ensures r.Some? ==> '/' !in r.value.0
  {
    if !StartsWith(uri, S3Scheme) then None
    else
      var rest := uri[|S3Scheme|..];
      match FirstIndexOf(rest, '/')
      case None => None
      case Some(i) => Some((rest[..i], rest[i + 1..]))
  }

  /** Building a URI and reading it back gives the bucket and key again,
      for every bucket name without a `/` (bucket names never contain one). */
  lemma ParseS3UriRoundTrip(bucket: string, key: string)
    requires '/' !in bucket
    ensures ParseS3Uri(S3Uri(bucket, key)) == Some((bucket, key))
  {
    var uri := S3Uri(bucket, key);
    var rest := bucket + ("/" + key);
    assert uri == S3Scheme + rest by {
      assert S3Scheme + bucket + "/" + key == S3Scheme + (bucket + ("/" + key));
    }
    assert StartsWith(uri, S3Scheme) && uri[|S3Scheme|..] == rest;
    FirstIndexAfter(bucket, "/" + key, '/');
    assert rest[..|bucket|] == bucket;
    assert rest[|bucket| + 1..] == key;
  }

  /** Every URI that reads back is the URI of what it reads back to. */
  lemma ParseS3UriSound(uri: string)
    requires ParseS3Uri(uri).Some?
    ensures S3Uri(ParseS3Uri(uri).value.0, ParseS3Uri(uri).value.1) == uri
  {
    var rest := uri[|S3Scheme|..];
    var i := FirstIndexOf(rest, '/').value;
    assert rest == rest[..i] + "/" + rest[i + 1..];
    assert uri == S3Scheme + rest;
  }

  /** When `c` does not occur in `a`, its first occurrence in `a + b` is the
      first occurrence in `b`, shifted by `|a|`. */
  lemma {:induction false} FirstIndexAfter(a: string, b: string, c: char)
    requires c !in a
    requires |b| > 0 && b[0] == c
    ensures FirstIndexOf(a + b, c) == Some(|a|)
  {
    if |a| > 0 {
      assert (a + b)[1..] == a[1..] + b;
      FirstIndexAfter(a[1..], b, c);
    }
  }

  /** The job identifier inside an invocation ARN: `arn.split('/')[-1]`, the
      text after the last `/`, or the whole ARN when it holds none. */
  function InvocationId(arn: string): (id: string)
    ensures EndsWith(arn, id)
    ensures '/' !in id
    ensures |id| < |arn| ==> arn[|arn| - |id| - 1] == '/'
    ensures '/' !in arn ==> id == arn
  {
    if |arn| == 0 then ""
    else if arn[|arn| - 1] == '/' then ""
    else
      var init := arn[..|arn| - 1];
      var last := arn[|arn| - 1];
      assert arn == init + [last];
      InvocationId(init) + [last]
  }

  /** The ARN is the text up to and including its last `/`, then the id. */
  lemma InvocationIdSplits(arn: string)
    requires '/' in arn
    ensures var id := InvocationId(arn);
            |id| < |arn| && arn == arn[..|arn| - |id| - 1] + "/" + id
  {
    var id := InvocationId(arn);
    var n := |arn| - |id|;
    assert arn[n..] == id;
    var head := arn[..n - 1];
    assert arn[n - 1] == '/';
    assert arn == head + [arn[n - 1]] + arn[n..];
  }
}
