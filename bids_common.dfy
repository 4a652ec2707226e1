/** The collaborators the incremental imports from its common-helpers module:
    the BIDS entity table, the ProtocolName parser, the time-unit fix-up, the
    entity filter, the dataset-description constants and the path builder.
    Their source is not part of this model; each is written here as the
    smallest definition that agrees with how the incremental and its tests use
    it, and the lemmas below name the facts the rest of the model relies on. */
module BidsCommon {
  import opened Wrappers
  import opened PyValues

  /** The BIDS entity names, all lower case, in the order of the BIDS entity
      table. Only the facts of `EntityTableFacts` are relied upon. */
  const EntityNames: seq<string> := [
    "subject", "session", "task", "acquisition", "ceagent",
    "reconstruction", "direction", "run", "modality", "echo",
    "flip", "inversion", "mtransfer", "part", "recording",
    "processing", "space", "split", "resolution", "density"
  ]

  predicate IsEntity(name: string) { name in EntityNames }

  predicate IsLowerCase(s: string) {
    forall i :: 0 <= i < |s| ==> 'a' <= s[i] <= 'z'
  }

  /** The entity table has 20 lower-case names. */
  lemma EntityTableLowerCase()
    ensures |EntityNames| == 20
    ensures forall k :: 0 <= k < |EntityNames| ==> IsLowerCase(EntityNames[k])
  {
    forall k | 0 <= k < |EntityNames| ensures IsLowerCase(EntityNames[k]) {
      if k < 5 { LowerCaseNames0(k); }
      else if k < 10 { LowerCaseNames1(k); }
      else if k < 15 { LowerCaseNames2(k); }
      else { LowerCaseNames3(k); }
    }
  }

  // The table checked five names at a time.

  lemma LowerCaseNames0(k: nat)
    requires k < 5
    ensures IsLowerCase(EntityNames[k])
  {
    if k == 0 { assert IsLowerCase("subject"); }
    else if k == 1 { assert IsLowerCase("session"); }
    else if k == 2 { assert IsLowerCase("task"); }
    else if k == 3 { assert IsLowerCase("acquisition"); }
    else { assert IsLowerCase("ceagent"); }
  }

  lemma LowerCaseNames1(k: nat)
    requires 5 <= k < 10
    ensures IsLowerCase(EntityNames[k])
  {
    if k == 5 { assert IsLowerCase("reconstruction"); }
    else if k == 6 { assert IsLowerCase("direction"); }
    else if k == 7 { assert IsLowerCase("run"); }
    else if k == 8 { assert IsLowerCase("modality"); }
    else { assert IsLowerCase("echo"); }
  }

  lemma LowerCaseNames2(k: nat)
    requires 10 <= k < 15
    ensures IsLowerCase(EntityNames[k])
  {
    if k == 10 { assert IsLowerCase("flip"); }
    else if k == 11 { assert IsLowerCase("inversion"); }
    else if k == 12 { assert IsLowerCase("mtransfer"); }
    else if k == 13 { assert IsLowerCase("part"); }
    else { assert IsLowerCase("recording"); }
  }

  lemma LowerCaseNames3(k: nat)
    requires 15 <= k < 20
    ensures IsLowerCase(EntityNames[k])
  {
    if k == 15 { assert IsLowerCase("processing"); }
    else if k == 16 { assert IsLowerCase("space"); }
    else if k == 17 { assert IsLowerCase("split"); }
    else if k == 18 { assert IsLowerCase("resolution"); }
    else { assert IsLowerCase("density"); }
  }

  /** A name that starts with an upper-case letter is never an entity. */
  lemma CapitalisedIsNotEntity(name: string)
    requires |name| > 0 && 'A' <= name[0] <= 'Z'
    ensures !IsEntity(name)
  {
    EntityTableLowerCase();
  }

  /** Subject, task, session and run are entities; the other required
      metadata keys are not. */
  lemma EntityTableKeyNames()
    ensures IsEntity("subject") && IsEntity("task") && IsEntity("session") && IsEntity("run")
    ensures !IsEntity("RepetitionTime") && !IsEntity("EchoTime") && !IsEntity("TaskName")
    ensures !IsEntity("suffix") && !IsEntity("datatype")
  {
    assert EntityNames[0] == "subject" && EntityNames[1] == "session";
    assert EntityNames[2] == "task" && EntityNames[7] == "run";
    CapitalisedIsNotEntity("RepetitionTime");
    CapitalisedIsNotEntity("EchoTime");
    CapitalisedIsNotEntity("TaskName");
    NotEntityByLength("suffix");
    NotEntityByLength("datatype");
  }

  /** The optional parts of the file-name template are entities. */
  lemma FileNameTemplateEntities()
    ensures IsEntity("acquisition") && IsEntity("ceagent") && IsEntity("direction")
    ensures IsEntity("reconstruction") && IsEntity("echo")
  {
    assert EntityNames[3] == "acquisition" && EntityNames[4] == "ceagent";
    assert EntityNames[5] == "reconstruction" && EntityNames[6] == "direction" && EntityNames[9] == "echo";
  }

  /** Three lower-case keys of the path builder that are not entities. */
  lemma NotEntityByLength(name: string)
    requires name == "suffix" || name == "datatype" || name == "extension"
    ensures !IsEntity(name)
  {
    forall k | 0 <= k < |EntityNames| ensures EntityNames[k] != name {
    }
  }

  /** `filterEntities`: the entries of `m` whose key is a BIDS entity. */
  function FilterEntities(m: map<string, Value>): (e: map<string, Value>)
    ensures forall k :: k in e <==> k in m && IsEntity(k)
    ensures forall k :: k in e ==> e[k] == m[k]
  {
    map k | k in m && IsEntity(k) :: m[k]
  }

  // ---------------------------------------------------------------------
  // ProtocolName parsing

  /** Splits `s` at every `sep`; `SplitOn("a_b", '_') == ["a", "b"]`. */
  function SplitOn(s: string, sep: char): (parts: seq<string>)
    ensures |parts| > 0
    ensures forall k :: 0 <= k < |parts| ==> sep !in parts[k]
  {
    if sep !in s then [s]
    else
      var i := IndexOf(s, sep);
      [s[..i]] + SplitOn(s[i + 1..], sep)
  }

  function IndexOf(s: string, c: char): (i: nat)
    requires c in s
    ensures i < |s| && s[i] == c && c !in s[..i]
  {
    if s[0] == c then 0 else 1 + IndexOf(s[1..], c)
  }

  /** The entity a ProtocolName part `key-label` names. */
  function ProtocolKeyEntity(key: string): Option<string>
  {
    if key == "ses" then Some("session")
    else if key == "task" then Some("task")
    else if key == "run" then Some("run")
    else None
  }

  /** The fields one `_`-separated part of a ProtocolName contributes. */
  function PartFields(part: string): (f: map<string, Value>)
    ensures forall k :: k in f ==> k in {"session", "task", "run"} && f[k].Str? && |f[k].s| > 0
  {
    if '-' !in part then map[]
    else
      var i := IndexOf(part, '-');
      var text := part[i + 1..];
      match ProtocolKeyEntity(part[..i])
      case Some(entity) => if text == [] then map[] else map[entity := Str(text)]
      case None => map[]
  }

  /** Fields of a list of parts; for a key found twice the first part wins. */
  function PartsFields(parts: seq<string>): (f: map<string, Value>)
    ensures forall k :: k in f ==> k in {"session", "task", "run"} && f[k].Str?
  {
    if parts == [] then map[] else PartsFields(parts[1..]) + PartFields(parts[0])
  }

  /** `metadataFromProtocolName`: session, task and run read from a
      ProtocolName such as `func_ses-01_task-faces_run-01`; an absent or
      non-string ProtocolName gives no fields. */
  function MetadataFromProtocolName(protocolName: Value): (fields: map<string, Value>)
    ensures fields.Keys <= {"session", "task", "run"}
    ensures !protocolName.Str? ==> fields == map[]
  {
    if protocolName.Str? && protocolName.s != "" then
      PartsFields(SplitOn(protocolName.s, '_'))
    else map[]
  }

  /** A ProtocolName yields at most session, task and run, each a string. */
  lemma ProtocolNameFieldKeys(protocolName: Value)
    ensures forall k :: k in MetadataFromProtocolName(protocolName) ==>
              k in {"session", "task", "run"} && MetadataFromProtocolName(protocolName)[k].Str?
  {
  }

  // ---------------------------------------------------------------------
  // Time units

  /** Above this many "seconds" a time field is taken to be in milliseconds. */
  const MaxSeconds: real := 100.0

  /** One time value brought into seconds. */
  function ToSeconds(v: Value): (r: Value)
    ensures AsReal(v).Some? && AsReal(v).value > MaxSeconds ==> r == Real(AsReal(v).value / 1000.0)
    ensures AsReal(v).None? || AsReal(v).value <= MaxSeconds ==> r == v
  {
    match AsReal(v)
    case Some(x) => if x > MaxSeconds then Real(x / 1000.0) else v
    case None => v
  }

  /** `adjustTimeUnits`: RepetitionTime and EchoTime recorded in
      milliseconds are rescaled to seconds; no key is added or removed and no
      other key changes. */
  function AdjustTimeUnits(m: map<string, Value>): (r: map<string, Value>)
    ensures r.Keys == m.Keys
  {
    var m1 := if "RepetitionTime" in m then m["RepetitionTime" := ToSeconds(m["RepetitionTime"])] else m;
    if "EchoTime" in m1 then m1["EchoTime" := ToSeconds(m1["EchoTime"])] else m1
  }

  /** Only the two time fields can change, each to its value in seconds. */
  lemma AdjustTimeUnitsValues(m: map<string, Value>)
    ensures forall k :: k in m && k != "RepetitionTime" && k != "EchoTime" ==> AdjustTimeUnits(m)[k] == m[k]
    ensures forall k :: k in m && (k == "RepetitionTime" || k == "EchoTime") ==> AdjustTimeUnits(m)[k] == ToSeconds(m[k])
  {
  }

  // ---------------------------------------------------------------------
  // Dataset description

  const DatasetDescRequiredFields: seq<string> := ["Name", "BIDSVersion"]

  /** The description stored when none is supplied. */
  const DefaultDatasetDescription: map<string, Value> := map[
    "Name" := Str("bidsi_dataset"),
    "BIDSVersion" := Str("1.4.1"),
    "Authors" := List([Str("The RT-Cloud Authors"), Str("The Dataset Author")])
  ]

  // ---------------------------------------------------------------------
  // File kinds and the BIDS path templates

  datatype FileKind = ImageFile | MetadataFile | EventsFile

  function Extension(kind: FileKind): string
  {
    match kind
    case ImageFile => ".nii"
    case MetadataFile => ".json"
    case EventsFile => ".tsv"
  }

  predicate HasValue(e: map<string, Value>, key: string) {
    key in e && e[key] != Null
  }

  /** An optional `[<prefix><label>]` segment of a template, such as
      `[_ses-<label>]`. */
  function OptionalSegment(e: map<string, Value>, prefix: string, entity: string): string
  {
    if HasValue(e, entity) then prefix + Label(e[entity]) else ""
  }

  /** `build_path` with the file-name template
      `sub-<label>[_ses-<label>]_task-<label>[_acq-<label>][_ce-<label>]
      [_dir-<label>][_rec-<label>][_run-<index>][_echo-<index>]_<suffix><extension>`;
      `None` when a mandatory part has no value. */
  function BuildFileName(e: map<string, Value>): (r: Option<string>)
    ensures r.Some? <==> HasValue(e, "subject") && HasValue(e, "task") && HasValue(e, "suffix") && HasValue(e, "extension")
    ensures r.Some? ==>
      var head := "sub-" + Label(e["subject"]);
      var tail := "_" + Label(e["suffix"]) + Label(e["extension"]);
      |head| + |tail| <= |r.value| && r.value[..|head|] == head && r.value[|r.value| - |tail|..] == tail
    ensures r.Some? ==>
      r.value ==
        ("sub-" + Label(e["subject"]))
        + ((if HasValue(e, "session") then "_ses-" + Label(e["session"]) else "")
           + "_task-" + Label(e["task"])
           + (if HasValue(e, "acquisition") then "_acq-" + Label(e["acquisition"]) else "")
           + (if HasValue(e, "ceagent") then "_ce-" + Label(e["ceagent"]) else "")
           + (if HasValue(e, "direction") then "_dir-" + Label(e["direction"]) else "")
           + (if HasValue(e, "reconstruction") then "_rec-" + Label(e["reconstruction"]) else "")
           + (if HasValue(e, "run") then "_run-" + Label(e["run"]) else "")
           + (if HasValue(e, "echo") then "_echo-" + Label(e["echo"]) else ""))
        + ("_" + Label(e["suffix"]) + Label(e["extension"]))
  {
    if HasValue(e, "subject") && HasValue(e, "task") && HasValue(e, "suffix") && HasValue(e, "extension") then
      var head := "sub-" + Label(e["subject"]);
      var middle := OptionalSegment(e, "_ses-", "session")
        + "_task-" + Label(e["task"])
        + OptionalSegment(e, "_acq-", "acquisition")
        + OptionalSegment(e, "_ce-", "ceagent")
        + OptionalSegment(e, "_dir-", "direction")
        + OptionalSegment(e, "_rec-", "reconstruction")
        + OptionalSegment(e, "_run-", "run")
        + OptionalSegment(e, "_echo-", "echo");
      var tail := "_" + Label(e["suffix"]) + Label(e["extension"]);
      assert (head + middle + tail)[..|head|] == head;
      assert (head + middle + tail)[|head + middle|..] == tail;
      Some(head + middle + tail)
    else None
  }

  /** `build_path` with the directory template
      `sub-<label>[/ses-<label>]/<datatype>`. */
  function BuildDirPath(m: map<string, Value>): (r: Option<string>)
    ensures r.Some? <==> HasValue(m, "subject") && HasValue(m, "datatype")
    ensures r.Some? ==>
      r.value == "sub-" + Label(m["subject"])
        + (if HasValue(m, "session") then "/ses-" + Label(m["session"]) else "")
        + "/" + Label(m["datatype"])
  {
    if HasValue(m, "subject") && HasValue(m, "datatype") then
      var session := OptionalSegment(m, "/ses-", "session");
      assert HasValue(m, "session") ==> session == "/ses-" + Label(m["session"]);
      Some("sub-" + Label(m["subject"]) + session + "/" + Label(m["datatype"]))
    else None
  }
}
