/** `process_explainability_info`, present twice with the same text in
    infrastructure/validation/app.py and infrastructure/extraction/app_eventbridge.py:
    from the first entry of a result document's `explainability_info` list it
    collects `<field>_confidence`, `<field>_success` and `<field>_value`
    entries, keeps the `_confidence` ones, and answers `None` whenever any
    step raises. One member here models both copies. */
module Explainability {
  import opened Wrappers
  import opened Text
  import opened JsonValue

  const ConfidenceTag: string := "confidence"
  const SuccessTag: string := "success"
  const ValueTag: string := "value"

  /** The suffix the final filter keeps. */
  const ConfidenceSuffix: string := "_confidence"

  /** `f"{field}_{tag}"`. */
  function EntryKey(field: string, tag: string): (k: string)
    ensures StartsWith(k, field) && EndsWith(k, "_" + tag)
  {
    StartsWithConcat(field, "_" + tag);
    EndsWithConcat(field, "_" + tag);
    field + ("_" + tag)
  }

  /** Copying `tag` out of a field's data raises: `tag in data` is itself a
      TypeError, or it holds but `data[tag]` is not defined (a list holding
      the string, or a string containing it). */
  predicate TagRaises(data: Json, tag: string)
  {
    match Contains(data, tag)
    case None => true
    case Some(present) => present && Subscript(data, tag).None?
  }

  /** Some one of the three copies raises for this field's data. */
  predicate FieldRaises(data: Json)
  {
    TagRaises(data, ConfidenceTag) || TagRaises(data, SuccessTag) || TagRaises(data, ValueTag)
  }

  /** Which field data make the loop raise: never a dict, always null, a
      boolean or a number, and a list or string exactly when one of the three
      tags is "in" it. Any other list or string is skipped without error. */
  lemma FieldRaisesExactly(data: Json)
    ensures data.JObject? ==> !FieldRaises(data)
    ensures data.JNull? || data.JBool? || data.JInt? || data.JFloat? ==> FieldRaises(data)
    ensures data.JArray? ==>
              (FieldRaises(data) <==> JString(ConfidenceTag) in data.items
                                      || JString(SuccessTag) in data.items
                                      || JString(ValueTag) in data.items)
    ensures data.JString? ==>
              (FieldRaises(data) <==> IsSubstring(ConfidenceTag, data.s)
                                      || IsSubstring(SuccessTag, data.s)
                                      || IsSubstring(ValueTag, data.s))
  {
  }

  /** The field's data is a dict with a `confidence` entry. */
  predicate HasConfidence(data: Json)
  {
    data.JObject? && ConfidenceTag in data.fields
  }

  /** `json_response['explainability_info'][0]`, provided it is a dict (the
      only value with `.items()`); `None` for every way this raises. */
  function Section(doc: Json): (r: Option<map<string, Json>>)
    ensures r.Some? <==>
              && doc.JObject?
              && "explainability_info" in doc.fields
              && doc.fields["explainability_info"].JArray?
              && |doc.fields["explainability_info"].items| > 0
              && doc.fields["explainability_info"].items[0].JObject?
    ensures r.Some? ==> r.value == doc.fields["explainability_info"].items[0].fields
  {
    match Subscript(doc, "explainability_info")
    case None => None
    case Some(info) =>
      match First(info)
      case None => None
      case Some(first) => if first.JObject? then Some(first.fields) else None
  }

  lemma ConfidenceKeyInjective()
    ensures forall f1, f2 :: EntryKey(f1, ConfidenceTag) == EntryKey(f2, ConfidenceTag) ==> f1 == f2
  {
    forall f1, f2 | EntryKey(f1, ConfidenceTag) == EntryKey(f2, ConfidenceTag)
      ensures f1 == f2
    {
      ConcatCancel(f1, f2, "_" + ConfidenceTag);
    }
  }

  /** The reference mapping: one `<field>_confidence` entry, holding the
      field's confidence value, for each field of `done` that carries one. */
  function ConfidenceOf(fields: map<string, Json>, done: set<string>): map<string, Json>
  {
    ConfidenceKeyInjective();
    map f | f in done && f in fields && HasConfidence(fields[f])
      :: EntryKey(f, ConfidenceTag) := fields[f].fields[ConfidenceTag]
  }

  /** The comprehension `{k: v for k, v in results.items() if k.endswith('_confidence')}`. */
  function KeepConfidence(results: map<string, Json>): (kept: map<string, Json>)
    ensures forall k :: k in kept <==> k in results && EndsWith(k, ConfidenceSuffix)
    ensures forall k :: k in kept ==> kept[k] == results[k]
  {
    map k | k in results && EndsWith(k, ConfidenceSuffix) :: results[k]
  }

  /** What `process_explainability_info` returns for a parsed result document. */
  function ConfidenceScores(doc: Json): Option<map<string, Json>>
  {
    match Section(doc)
    case None => None
    case Some(fields) => FieldScores(fields)
  }

  /** What the loop and the filter give for the section's field map. */
  function FieldScores(fields: map<string, Json>): Option<map<string, Json>>
  {
    if exists f :: f in fields && FieldRaises(fields[f]) then None
    else Some(ConfidenceOf(fields, fields.Keys))
  }

  /** One `if '<tag>' in data: results[f"{field}_<tag>"] = data['<tag>']`
      step of the loop. `ok` is false when the step raises. */
  method CopyIfPresent(results: map<string, Json>, field: string, data: Json, tag: string)
    returns (ok: bool, updated: map<string, Json>)
    ensures ok == !TagRaises(data, tag)
    ensures ok && Contains(data, tag) == Some(true) ==>
              updated == results[EntryKey(field, tag) := Subscript(data, tag).value]
    ensures ok && Contains(data, tag) == Some(false) ==> updated == results
  {
    updated := results;
    var present := Contains(data, tag);
    if present.None? {
      return false, updated;
    }
    if present.value {
      var value := Subscript(data, tag);
      if value.None? {
        return false, updated;
      }
      updated := results[EntryKey(field, tag) := value.value];
    }
    ok := true;
  }

  /** `process_explainability_info(json_response)`: the lookup of the
      section, then the loop and the filter of `CollectConfidence`. */
  method ProcessExplainabilityInfo(doc: Json) returns (scores: Option<map<string, Json>>)
    ensures scores == ConfidenceScores(doc)
  {
    var info := Subscript(doc, "explainability_info");
    if info.None? {
      return None;
    }
    var first := First(info.value);
    if first.None? || !first.value.JObject? {
      return None;
    }
    assert Section(doc) == Some(first.value.fields);
    scores := CollectConfidence(first.value.fields);
  }

  /** The `for` loop over `explainability_info.items()` followed by the
      `_confidence` filter. The loop visits the fields in an arbitrary order. */
  method CollectConfidence(fields: map<string, Json>) returns (scores: Option<map<string, Json>>)
    ensures scores == FieldScores(fields)
  {
    var results: map<string, Json> := map[];
    var todo := fields.Keys;
    ghost var done: set<string> := {};
    while todo != {}
      invariant todo + done == fields.Keys && todo !! done
      invariant forall g :: g in done ==> !FieldRaises(fields[g])
      invariant KeepConfidence(results) == ConfidenceOf(fields, done)
      decreases todo
    {
      var field :| field in todo;
      var ok;
      ok, results := CopyField(fields, done, field, results);
      if !ok {
        assert field in fields && FieldRaises(fields[field]);
        return None;
      }
      todo := todo - {field};
      done := done + {field};
    }
    assert done == fields.Keys;
    assert !exists f :: f in fields && FieldRaises(fields[f]);
    scores := Some(KeepConfidence(results));
  }

  /** One turn of the loop: the three copies for `field`. `ok` is false when
      one of them raises; otherwise the kept `_confidence` entries grow by
      exactly that field's confidence entry, if it has one. */
  method CopyField(fields: map<string, Json>, ghost done: set<string>, field: string,
                   before: map<string, Json>)
    returns (ok: bool, results: map<string, Json>)
    requires field in fields && field !in done
    requires KeepConfidence(before) == ConfidenceOf(fields, done)
    ensures ok == !FieldRaises(fields[field])
    ensures ok ==> KeepConfidence(results) == ConfidenceOf(fields, done + {field})
  {
    var data := fields[field];
    var ok1, ok2, ok3;
    ok1, results := CopyIfPresent(before, field, data, ConfidenceTag);
    if !ok1 {
      return false, results;
    }
    var afterConfidence := results;
    ok2, results := CopyIfPresent(results, field, data, SuccessTag);
    if !ok2 {
      return false, results;
    }
    var afterSuccess := results;
    ok3, results := CopyIfPresent(results, field, data, ValueTag);
    if !ok3 {
      return false, results;
    }
    RecordFieldKeepsInvariant(fields, done, field, before, afterConfidence, afterSuccess, results);
    ok := true;
  }

  /** The three copies of one field extend the kept `_confidence` entries by
      exactly that field's confidence entry, if it has one. */
  lemma RecordFieldKeepsInvariant(fields: map<string, Json>, done: set<string>, field: string,
                                  before: map<string, Json>, afterConfidence: map<string, Json>,
                                  afterSuccess: map<string, Json>, afterValue: map<string, Json>)
    requires field in fields && field !in done
    requires !FieldRaises(fields[field])
    requires KeepConfidence(before) == ConfidenceOf(fields, done)
    requires Contains(fields[field], ConfidenceTag) == Some(true) ==>
               afterConfidence == before[EntryKey(field, ConfidenceTag) := Subscript(fields[field], ConfidenceTag).value]
    requires Contains(fields[field], ConfidenceTag) == Some(false) ==> afterConfidence == before
    requires Contains(fields[field], SuccessTag) == Some(true) ==>
               afterSuccess == afterConfidence[EntryKey(field, SuccessTag) := Subscript(fields[field], SuccessTag).value]
    requires Contains(fields[field], SuccessTag) == Some(false) ==> afterSuccess == afterConfidence
    requires Contains(fields[field], ValueTag) == Some(true) ==>
               afterValue == afterSuccess[EntryKey(field, ValueTag) := Subscript(fields[field], ValueTag).value]
    requires Contains(fields[field], ValueTag) == Some(false) ==> afterValue == afterSuccess
    ensures KeepConfidence(afterValue) == ConfidenceOf(fields, done + {field})
  {
    var data := fields[field];
    assert Contains(data, ConfidenceTag).Some? && Contains(data, SuccessTag).Some?
           && Contains(data, ValueTag).Some?;
    OtherTagsNotKept(field);
    if Contains(data, SuccessTag) == Some(true) {
      KeepIgnoresOtherKeys(afterConfidence, EntryKey(field, SuccessTag), Subscript(data, SuccessTag).value);
    }
    if Contains(data, ValueTag) == Some(true) {
      KeepIgnoresOtherKeys(afterSuccess, EntryKey(field, ValueTag), Subscript(data, ValueTag).value);
    }
    assert KeepConfidence(afterValue) == KeepConfidence(afterConfidence);
    ConfidenceOfGrows(fields, done, field);
    if HasConfidence(data) {
      assert Contains(data, ConfidenceTag) == Some(true);
      ConfidenceKeyKept(field);
      KeepAddsConfidenceKey(before, EntryKey(field, ConfidenceTag), data.fields[ConfidenceTag]);
    } else {
      assert Contains(data, ConfidenceTag) == Some(false);
    }
  }

  /** `<field>_confidence` passes the filter. */
  lemma ConfidenceKeyKept(field: string)
    ensures EndsWith(EntryKey(field, ConfidenceTag), ConfidenceSuffix)
  {
    assert "_" + ConfidenceTag == ConfidenceSuffix;
  }

  /** `<field>_success` and `<field>_value` never pass the filter: their last
      characters differ from those of `_confidence`. */
  lemma OtherTagsNotKept(field: string)
    ensures !EndsWith(EntryKey(field, SuccessTag), ConfidenceSuffix)
    ensures !EndsWith(EntryKey(field, ValueTag), ConfidenceSuffix)
  {
    var s := EntryKey(field, SuccessTag);
    var v := EntryKey(field, ValueTag);
    assert s[|s| - 1] == 's';
    assert v[|v| - 2] == 'u';
    assert ConfidenceSuffix[|ConfidenceSuffix| - 1] == 'e';
    assert ConfidenceSuffix[|ConfidenceSuffix| - 2] == 'c';
  }

  lemma KeepIgnoresOtherKeys(m: map<string, Json>, k: string, v: Json)
    requires !EndsWith(k, ConfidenceSuffix)
    ensures KeepConfidence(m[k := v]) == KeepConfidence(m)
  {
  }

  lemma KeepAddsConfidenceKey(m: map<string, Json>, k: string, v: Json)
    requires EndsWith(k, ConfidenceSuffix)
    ensures KeepConfidence(m[k := v]) == KeepConfidence(m)[k := v]
  {
  }

  lemma ConfidenceOfGrows(fields: map<string, Json>, done: set<string>, field: string)
    requires field in fields && field !in done
    ensures ConfidenceOf(fields, done + {field}) ==
              if HasConfidence(fields[field])
              then ConfidenceOf(fields, done)[EntryKey(field, ConfidenceTag) := fields[field].fields[ConfidenceTag]]
              else ConfidenceOf(fields, done)
  {
    ConfidenceKeyInjective();
  }

  /** The field name a kept key was built from: the key without `_confidence`. */
  function FieldOfKey(k: string): string
    requires EndsWith(k, ConfidenceSuffix)
  {
    k[..|k| - |ConfidenceSuffix|]
  }

  /** A key ending in `_confidence` ends in neither `_success` nor `_value`. */
  lemma SuffixesExclusive(k: string)
    requires EndsWith(k, ConfidenceSuffix)
    ensures !EndsWith(k, "_" + SuccessTag) && !EndsWith(k, "_" + ValueTag)
  {
    assert k[|k| - 1] == k[|k| - |ConfidenceSuffix|..][|ConfidenceSuffix| - 1] == 'e';
    assert k[|k| - 2] == k[|k| - |ConfidenceSuffix|..][|ConfidenceSuffix| - 2] == 'c';
  }

  /** When the section is well formed, the confidence mapping holds the key
      `<f>_confidence` exactly for the fields `f` whose data carries a
      confidence, mapped to that confidence, and no `_success` or `_value`
      key survives. */
  lemma ConfidenceScoresExact(doc: Json)
    requires ConfidenceScores(doc).Some?
    ensures Section(doc).Some?
    ensures var fields := Section(doc).value;
            var scores := ConfidenceScores(doc).value;
            && (forall f :: f in fields && HasConfidence(fields[f]) ==>
                  EntryKey(f, ConfidenceTag) in scores
                  && scores[EntryKey(f, ConfidenceTag)] == fields[f].fields[ConfidenceTag])
            && (forall k :: k in scores ==>
                  && EndsWith(k, ConfidenceSuffix)
                  && FieldOfKey(k) in fields
                  && HasConfidence(fields[FieldOfKey(k)])
                  && k == EntryKey(FieldOfKey(k), ConfidenceTag)
                  && scores[k] == fields[FieldOfKey(k)].fields[ConfidenceTag])
            && (forall k :: k in scores ==>
                  !EndsWith(k, "_" + SuccessTag) && !EndsWith(k, "_" + ValueTag))
  {
    var fields := Section(doc).value;
    var scores := ConfidenceScores(doc).value;
    assert scores == ConfidenceOf(fields, fields.Keys);
    ConfidenceKeyInjective();
    forall k | k in scores
      ensures && EndsWith(k, ConfidenceSuffix)
              && FieldOfKey(k) in fields
              && HasConfidence(fields[FieldOfKey(k)])
              && k == EntryKey(FieldOfKey(k), ConfidenceTag)
              && scores[k] == fields[FieldOfKey(k)].fields[ConfidenceTag]
      ensures !EndsWith(k, "_" + SuccessTag) && !EndsWith(k, "_" + ValueTag)
    {
      var f :| f in fields && HasConfidence(fields[f]) && k == EntryKey(f, ConfidenceTag);
      ConfidenceKeyKept(f);
      assert FieldOfKey(k) == f;
      SuffixesExclusive(k);
    }
  }

  /** Every well-formed section gives a mapping: a dict of dicts never raises. */
  lemma DictOfDictsGivesScores(doc: Json)
    requires Section(doc).Some?
    requires forall f :: f in Section(doc).value ==> Section(doc).value[f].JObject?
    ensures ConfidenceScores(doc).Some?
  {
    var fields := Section(doc).value;
    forall f | f in fields
      ensures !FieldRaises(fields[f])
    {
      FieldRaisesExactly(fields[f]);
    }
  }

  /** Null, a boolean or a number: a value `in` cannot search. */
  predicate IsScalar(data: Json)
  {
    data.JNull? || data.JBool? || data.JInt? || data.JFloat?
  }

  /** The ways the lookup `json_response['explainability_info'][0]` and the
      loop fail all give `None`: a document that is not a dict, a missing
      section, an empty list, a first entry that is not a dict, and a field
      whose data is null, a boolean or a number. */
  lemma MalformedGivesNone(doc: Json)
    ensures !doc.JObject? ==> ConfidenceScores(doc).None?
    ensures doc.JObject? && "explainability_info" !in doc.fields ==> ConfidenceScores(doc).None?
    ensures (doc.JObject? && "explainability_info" in doc.fields
             && doc.fields["explainability_info"] == JArray([])) ==> ConfidenceScores(doc).None?
    ensures (doc.JObject? && "explainability_info" in doc.fields
             && doc.fields["explainability_info"].JArray?
             && |doc.fields["explainability_info"].items| > 0
             && !doc.fields["explainability_info"].items[0].JObject?) ==> ConfidenceScores(doc).None?
    ensures Section(doc).Some? &&
            (exists f :: f in Section(doc).value && IsScalar(Section(doc).value[f])) ==>
              ConfidenceScores(doc).None?
  {
    if Section(doc).Some? && (exists f :: f in Section(doc).value && IsScalar(Section(doc).value[f])) {
      var f :| f in Section(doc).value && IsScalar(Section(doc).value[f]);
      FieldRaisesExactly(Section(doc).value[f]);
    }
  }
}
