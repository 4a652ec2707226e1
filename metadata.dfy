/** The image-metadata rules of the BIDS incremental: the required fields, the
    construction-time normalisation (ProtocolName fields, SliceTiming
    placeholder, caller's fields, time units, run coercion, TaskName), the
    dataset-description check, and get/set/remove on a metadata dictionary. */
module Metadata {
  import opened Wrappers
  import opened PyValues
  import opened BidsCommon
  import opened Errors

  /** `REQUIRED_IMAGE_METADATA`, in its declared order. */
  const RequiredImageMetadata: seq<string> :=
    ["subject", "task", "suffix", "datatype", "RepetitionTime", "EchoTime"]

  predicate IsRequired(field: string) { field in RequiredImageMetadata }

  /** `a` is `b` with some entries left out and the rest in their order. */
  predicate IsSubsequence(a: seq<string>, b: seq<string>)
  {
    if a == [] then true
    else if b == [] then false
    else if a[0] == b[0] then IsSubsequence(a[1..], b[1..])
    else IsSubsequence(a, b[1..])
  }

  /** The entries of `fields` that are not keys of `m`, in their order. */
  function MissingKeys(fields: seq<string>, m: map<string, Value>): (r: seq<string>)
    ensures IsSubsequence(r, fields)
    ensures forall i :: 0 <= i < |r| ==> r[i] in fields && r[i] !in m
    ensures forall i :: 0 <= i < |fields| && fields[i] !in m ==> fields[i] in r
  {
    if fields == [] then []
    else
      var rest := MissingKeys(fields[1..], m);
      assert forall i :: 1 <= i < |fields| ==> fields[i] == fields[1..][i - 1];
      if fields[0] in m then rest else [fields[0]] + rest
  }

  /** `missingImageMetadata`: the required fields that are not keys of `m`
      (a key holding `None` counts as present), in the declared order
      subject, task, suffix, datatype, RepetitionTime, EchoTime. */
  function MissingImageMetadata(m: map<string, Value>): (r: seq<string>)
    ensures IsSubsequence(r, RequiredImageMetadata)
    ensures forall i :: 0 <= i < |r| ==> IsRequired(r[i]) && r[i] !in m
  {
    MissingKeys(RequiredImageMetadata, m)
  }

  /** Exactly the required fields absent from `m` are reported. */
  lemma MissingImageMetadataExact(m: map<string, Value>, f: string)
    ensures f in MissingImageMetadata(m) <==> IsRequired(f) && f !in m
  {
    var r := MissingImageMetadata(m);
    if f in r {
      var i :| 0 <= i < |r| && r[i] == f;
    } else if IsRequired(f) {
      var i :| 0 <= i < |RequiredImageMetadata| && RequiredImageMetadata[i] == f;
    }
  }

  /** `isCompleteImageMetadata`: no required field is missing, that is, all
      six required keys are present. */
  function IsCompleteImageMetadata(m: map<string, Value>): (b: bool)
    ensures b <==> "subject" in m && "task" in m && "suffix" in m && "datatype" in m
                   && "RepetitionTime" in m && "EchoTime" in m
  {
    var missing := MissingImageMetadata(m);
    assert missing == MissingKeys(RequiredImageMetadata, m);
    assert missing != [] ==> IsRequired(missing[0]) && missing[0] !in m;
    assert missing == [] ==> forall i :: 0 <= i < |RequiredImageMetadata| ==> RequiredImageMetadata[i] in m;
    assert RequiredImageMetadata[0] == "subject" && RequiredImageMetadata[1] == "task";
    assert RequiredImageMetadata[2] == "suffix" && RequiredImageMetadata[3] == "datatype";
    assert RequiredImageMetadata[4] == "RepetitionTime" && RequiredImageMetadata[5] == "EchoTime";
    missing == []
  }

  /** Complete means every required field is a key. */
  lemma CompleteIffEveryRequiredPresent(m: map<string, Value>)
    ensures IsCompleteImageMetadata(m) <==> forall f :: IsRequired(f) ==> f in m
  {
  }

  /** `createImageMetadataDict`: the six required fields and nothing else. */
  function CreateImageMetadataDict(subject: string, task: string, suffix: string, dataType: string,
                                   repetitionTime: Value, echoTime: Value): (m: map<string, Value>)
    ensures IsCompleteImageMetadata(m)
    ensures m.Keys == {"subject", "task", "suffix", "datatype", "RepetitionTime", "EchoTime"}
    ensures m["subject"] == Str(subject) && m["task"] == Str(task)
    ensures m["suffix"] == Str(suffix) && m["datatype"] == Str(dataType)
    ensures m["RepetitionTime"] == repetitionTime && m["EchoTime"] == echoTime
  {
    map["subject" := Str(subject), "task" := Str(task), "suffix" := Str(suffix),
        "datatype" := Str(dataType), "RepetitionTime" := repetitionTime, "EchoTime" := echoTime]
  }

  /** Which fields are missing depends only on the keys, not the values. */
  lemma {:induction false} MissingKeysDependsOnKeys(fields: seq<string>, m1: map<string, Value>, m2: map<string, Value>)
    requires m1.Keys == m2.Keys
    ensures MissingKeys(fields, m1) == MissingKeys(fields, m2)
  {
    if fields != [] {
      MissingKeysDependsOnKeys(fields[1..], m1, m2);
    }
  }

  // ---------------------------------------------------------------------
  // Dataset description

  /** The required dataset-description fields that are absent or `None`. */
  function MissingDatasetFields(d: map<string, Value>): (r: seq<string>)
    ensures forall f :: f in r <==> f in DatasetDescRequiredFields && (f !in d || d[f] == Null)
    ensures |r| <= |DatasetDescRequiredFields|
    ensures |r| == 2 ==> r == DatasetDescRequiredFields
  {
    (if !HasValue(d, "Name") then ["Name"] else [])
      + (if !HasValue(d, "BIDSVersion") then ["BIDSVersion"] else [])
  }

  /** Every required dataset-description field is present and not `None`. */
  predicate IsCompleteDatasetDescription(d: map<string, Value>) {
    forall f :: f in DatasetDescRequiredFields ==> HasValue(d, f)
  }

  /** The missing-field check passes exactly for a complete description. */
  lemma NoDatasetFieldsMissingIffComplete(d: map<string, Value>)
    ensures MissingDatasetFields(d) == [] <==> IsCompleteDatasetDescription(d)
  {
    if MissingDatasetFields(d) != [] {
      assert MissingDatasetFields(d)[0] in MissingDatasetFields(d);
    }
  }

  lemma DefaultDatasetDescriptionIsComplete()
    ensures MissingDatasetFields(DefaultDatasetDescription) == []
    ensures IsCompleteDatasetDescription(DefaultDatasetDescription)
  {
    NoDatasetFieldsMissingIffComplete(DefaultDatasetDescription);
  }

  // ---------------------------------------------------------------------
  // Construction-time normalisation

  /** The `SliceTiming` placeholder `list(np.linspace(0.0, 1.5, 27))`, with
      exact reals for the floats. */
  const SliceTimingPlaceholder: Value := List(LinSpace(1.5, 27))

  /** `np.linspace(0.0, stop, num)`: `num` evenly spaced points from 0 to
      `stop`, both ends included. */
  function LinSpace(stop: real, num: nat): (points: seq<Value>)
    requires 2 <= num
    ensures |points| == num
    ensures points[0] == Real(0.0) && points[num - 1] == Real(stop)
  {
    var gaps := (num - 1) as real;
    assert gaps / gaps == 1.0;
    seq(num, i requires 0 <= i < num => Real(stop * (i as real / gaps)))
  }

  function ProtocolNameOf(raw: map<string, Value>): Value {
    if "ProtocolName" in raw then raw["ProtocolName"] else Null
  }

  /** The fields derived from the ProtocolName, then the SliceTiming
      placeholder, then the caller's fields, the later winning on a clash. */
  function MergedMetadata(raw: map<string, Value>): (m: map<string, Value>)
    ensures m.Keys == MetadataFromProtocolName(ProtocolNameOf(raw)).Keys + {"SliceTiming"} + raw.Keys
  {
    MetadataFromProtocolName(ProtocolNameOf(raw))["SliceTiming" := SliceTimingPlaceholder] + raw
  }

  /** The merge has the keys of all three sources; the caller's values win,
      the placeholder fills in a SliceTiming the caller did not give, and the
      ProtocolName fields fill in what else the caller did not give. */
  lemma MergedMetadataFacts(raw: map<string, Value>)
    ensures var m := MergedMetadata(raw);
      var fromName := MetadataFromProtocolName(ProtocolNameOf(raw));
      && m.Keys == fromName.Keys + {"SliceTiming"} + raw.Keys
      && (forall k :: k in raw ==> m[k] == raw[k])
      && ("SliceTiming" !in raw ==> m["SliceTiming"] == SliceTimingPlaceholder)
      && (forall k :: k in fromName && k !in raw && k != "SliceTiming" ==> m[k] == fromName[k])
  {
  }

  /** `_preprocessAndSetMetadata`: the merge with its time units adjusted. */
  function PreprocessMetadata(raw: map<string, Value>): (m: map<string, Value>)
    ensures m.Keys == MergedMetadata(raw).Keys
  {
    AdjustTimeUnits(MergedMetadata(raw))
  }

  /** `_postprocessMetadata`: `run` (when present and not `None`) passed
      through `int()`, then `TaskName` set to `task`; fails, exactly as
      `int()` would, on a run it cannot convert. */
  function PostprocessMetadata(m: map<string, Value>): (r: Result<map<string, Value>, Error>)
    requires "task" in m
    ensures r.Failure? <==> HasValue(m, "run") && PyInt(m["run"]).None?
    ensures r.Failure? ==> r.error == RunNotInteger(m["run"])
    ensures r.Success? ==> r.value.Keys == m.Keys + {"TaskName"}
  {
    var coerced :=
      if HasValue(m, "run") then
        match PyInt(m["run"])
        case Some(run) => Success(m["run" := Int(run)])
        case None => Failure(RunNotInteger(m["run"]))
      else Success(m);
    match coerced
    case Failure(e) => Failure(e)
    case Success(m1) => Success(m1["TaskName" := m1["task"]])
  }

  /** After post-processing TaskName equals task, a non-`None` run is the
      integer `int()` makes of it, and every other field is unchanged. */
  lemma PostprocessedValues(m: map<string, Value>)
    requires "task" in m && PostprocessMetadata(m).Success?
    ensures var r := PostprocessMetadata(m).value;
      && r["TaskName"] == m["task"]
      && (HasValue(m, "run") ==> r["run"] == Int(PyInt(m["run"]).value))
      && (forall k :: k in m && k != "run" && k != "TaskName" ==> r[k] == m[k])
  {
    assert "task" != "run";
  }

  /** The image metadata a successful construction stores, or the error it
      raises: the preprocessed merge, the required-field check, then the
      post-processing. */
  function NormalizeMetadata(raw: map<string, Value>): (r: Result<map<string, Value>, Error>)
    ensures r.Success? ==> IsCompleteImageMetadata(r.value)
    ensures r.Failure? ==> r.error.ImageMetadataMissing? || r.error.RunNotInteger?
  {
    var pre := PreprocessMetadata(raw);
    if !IsCompleteImageMetadata(pre) then Failure(ImageMetadataMissing(MissingImageMetadata(pre)))
    else PostprocessMetadata(pre)
  }

  /** Construction reports missing metadata exactly when a required key is
      absent from the merge of ProtocolName fields, placeholder and caller's
      fields, and then names every absent field in declared order. */
  lemma MissingMetadataIffIncomplete(raw: map<string, Value>)
    ensures (NormalizeMetadata(raw).Failure? && NormalizeMetadata(raw).error.ImageMetadataMissing?)
            <==> !IsCompleteImageMetadata(MergedMetadata(raw))
    ensures NormalizeMetadata(raw).Failure? && NormalizeMetadata(raw).error.ImageMetadataMissing? ==>
            NormalizeMetadata(raw).error.imageFields == MissingImageMetadata(MergedMetadata(raw))
  {
    MissingKeysDependsOnKeys(RequiredImageMetadata, PreprocessMetadata(raw), MergedMetadata(raw));
  }

  /** Only `task` can come from the ProtocolName: every other required field
      is present after the merge exactly when the caller supplied it. */
  lemma RequiredFieldsFromCaller(raw: map<string, Value>, field: string)
    requires IsRequired(field) && field != "task"
    ensures field in MergedMetadata(raw) <==> field in raw
  {
    MergedMetadataFacts(raw);
    ProtocolNameFieldKeys(ProtocolNameOf(raw));
  }

  /** After a successful normalisation: TaskName equals task, a present
      non-`None` run is an integer, the caller's other fields are kept as
      given, and the time fields are the caller's values in seconds. */
  lemma NormalizedMetadataFacts(raw: map<string, Value>)
    requires NormalizeMetadata(raw).Success?
    ensures var r := NormalizeMetadata(raw).value;
      && r.Keys == MergedMetadata(raw).Keys + {"TaskName"}
      && r["TaskName"] == r["task"]
      && (HasValue(r, "run") ==> r["run"].Int?)
      && (forall k :: k in raw && k !in {"run", "TaskName", "RepetitionTime", "EchoTime"} ==> r[k] == raw[k])
      && (forall k :: k in raw && k in {"RepetitionTime", "EchoTime"} ==> r[k] == ToSeconds(raw[k]))
  {
    var merged := MergedMetadata(raw);
    var pre := PreprocessMetadata(raw);
    var r := NormalizeMetadata(raw).value;
    assert r == PostprocessMetadata(pre).value;
    MergedMetadataFacts(raw);
    AdjustTimeUnitsValues(merged);
    PostprocessedValues(pre);
    assert "task" != "run" && "task" != "TaskName";
  }

  /** Construction fails on the run field exactly when all required fields
      are present but the run is a non-`None` value `int()` rejects. */
  lemma RunCoercionFailure(raw: map<string, Value>)
    ensures (NormalizeMetadata(raw).Failure? && NormalizeMetadata(raw).error.RunNotInteger?)
            <==> IsCompleteImageMetadata(MergedMetadata(raw))
                 && HasValue(MergedMetadata(raw), "run") && PyInt(MergedMetadata(raw)["run"]).None?
  {
    var pre := PreprocessMetadata(raw);
    MissingMetadataIffIncomplete(raw);
    AdjustTimeUnitsValues(MergedMetadata(raw));
    assert "run" != "RepetitionTime" && "run" != "EchoTime";
    assert HasValue(pre, "run") <==> HasValue(MergedMetadata(raw), "run");
  }

  // ---------------------------------------------------------------------
  // Field access

  /** `getMetadataField`: the value, `None` for an absent key; with `strict`
      only entity names are accepted. */
  function GetField(m: map<string, Value>, field: string, strict: bool): (r: Result<Value, Error>)
    ensures r.Failure? <==> strict && !IsEntity(field)
    ensures r.Failure? ==> r.error == NotBidsEntity(field)
    ensures r.Success? && field in m ==> r.value == m[field]
    ensures r.Success? && field !in m ==> r.value == Null
  {
    if strict && !IsEntity(field) then Failure(NotBidsEntity(field))
    else if field in m then Success(m[field])
    else Success(Null)
  }

  /** `setMetadataField`: the strict check first, then the empty-name check;
      on success only `field` changes. */
  function SetField(m: map<string, Value>, field: string, value: Value, strict: bool)
    : (r: Result<map<string, Value>, Error>)
    ensures r.Failure? <==> (strict && !IsEntity(field)) || field == ""
    ensures r.Failure? ==> r.error == (if strict && !IsEntity(field) then NotBidsEntity(field) else EmptyFieldName)
    ensures r.Success? ==> r.value.Keys == m.Keys + {field} && r.value[field] == value
    ensures r.Success? ==> forall k :: k in m && k != field ==> r.value[k] == m[k]
  {
    if strict && !IsEntity(field) then Failure(NotBidsEntity(field))
    else if field != "" then Success(m[field := value])
    else Failure(EmptyFieldName)
  }

  /** `removeMetadataField`: the required-field check first (so it applies
      with or without `strict`), then the strict check; removing an absent
      key changes nothing. */
  function RemoveField(m: map<string, Value>, field: string, strict: bool)
    : (r: Result<map<string, Value>, Error>)
    ensures r.Failure? <==> IsRequired(field) || (strict && !IsEntity(field))
    ensures r.Failure? ==> r.error == (if IsRequired(field) then RequiredFieldRemoval(field) else NotBidsEntity(field))
    ensures r.Success? ==> r.value.Keys == m.Keys - {field}
    ensures r.Success? ==> forall k :: k in r.value ==> r.value[k] == m[k]
  {
    if IsRequired(field) then Failure(RequiredFieldRemoval(field))
    else if strict && !IsEntity(field) then Failure(NotBidsEntity(field))
    else Success(m - {field})
  }

  /** A get after a successful set returns the value set. */
  lemma GetAfterSet(m: map<string, Value>, field: string, value: Value, strict: bool)
    requires SetField(m, field, value, strict).Success?
    ensures GetField(SetField(m, field, value, strict).value, field, strict) == Success(value)
  {
  }

  /** Removing a key that is absent is a no-op. */
  lemma RemoveAbsentIsNoOp(m: map<string, Value>, field: string, strict: bool)
    requires field !in m && RemoveField(m, field, strict).Success?
    ensures RemoveField(m, field, strict).value == m
  {
  }

  /** Neither set nor remove can make complete metadata incomplete. */
  lemma FieldUpdatesKeepComplete(m: map<string, Value>, field: string, value: Value, strict: bool)
    requires IsCompleteImageMetadata(m)
    ensures SetField(m, field, value, strict).Success? ==> IsCompleteImageMetadata(SetField(m, field, value, strict).value)
    ensures RemoveField(m, field, strict).Success? ==> IsCompleteImageMetadata(RemoveField(m, field, strict).value)
  {
  }
}
