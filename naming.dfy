/** The archive-emulation views of an incremental's metadata: the entity
    view, the BIDS file name and data directory, the file paths, and the
    sidecar selection written next to the image. */
module Naming {
  import opened Wrappers
  import opened PyValues
  import opened BidsCommon

  /** The entity keys whose value is not `None`, the only metadata the file
      name is built from. */
  function NonNullEntities(m: map<string, Value>): (e: map<string, Value>)
    ensures forall k :: k in e <==> k in m && IsEntity(k) && m[k] != Null
    ensures forall k :: k in e ==> e[k] == m[k]
  {
    map k | k in m && IsEntity(k) && m[k] != Null :: m[k]
  }

  /** The dictionary handed to the path builder for a file of kind `kind`:
      the non-`None` entities, the extension, and the suffix (`events` for
      the events file, the metadata's own suffix otherwise). */
  function FileNameEntities(m: map<string, Value>, kind: FileKind): (e: map<string, Value>)
    requires kind == EventsFile || "suffix" in m
    ensures e.Keys == NonNullEntities(m).Keys + {"extension", "suffix"}
    ensures forall k :: k in NonNullEntities(m) && k != "suffix" ==> e[k] == m[k]
    ensures e["extension"] == Str(Extension(kind))
    ensures e["suffix"] == if kind == EventsFile then Str("events") else m["suffix"]
  {
    NotEntityByLength("extension");
    NonNullEntities(m)["extension" := Str(Extension(kind))]
      ["suffix" := if kind == EventsFile then Str("events") else m["suffix"]]
  }

  /** `makeBidsFileName`: `None` unless subject, task and (for a non-events
      file) suffix have values; otherwise a name that starts with
      `sub-<subject>` and ends with `_<suffix><extension>`. */
  function MakeBidsFileName(m: map<string, Value>, kind: FileKind): (r: Option<string>)
    requires kind == EventsFile || "suffix" in m
    ensures r.Some? <==> HasValue(m, "subject") && HasValue(m, "task") && (kind == EventsFile || m["suffix"] != Null)
    ensures r.Some? ==>
      var head := "sub-" + Label(m["subject"]);
      var tail := "_" + (if kind == EventsFile then "events" else Label(m["suffix"])) + Extension(kind);
      |head| + |tail| <= |r.value| && r.value[..|head|] == head && r.value[|r.value| - |tail|..] == tail
  {
    EntityTableKeyNames();
    BuildFileName(FileNameEntities(m, kind))
  }

  /** The whole file name: `sub-<subject>`, then each of the optional
      session, acquisition, contrast agent, direction, reconstruction, run
      and echo parts exactly when that field has a value, with the task part
      after the session, then `_<suffix><extension>`. */
  lemma MakeBidsFileNameSegments(m: map<string, Value>, kind: FileKind)
    requires kind == EventsFile || "suffix" in m
    ensures var r := MakeBidsFileName(m, kind);
      r.Some? ==>
      r.value ==
        ("sub-" + Label(m["subject"]))
        + ((if HasValue(m, "session") then "_ses-" + Label(m["session"]) else "")
           + "_task-" + Label(m["task"])
           + (if HasValue(m, "acquisition") then "_acq-" + Label(m["acquisition"]) else "")
           + (if HasValue(m, "ceagent") then "_ce-" + Label(m["ceagent"]) else "")
           + (if HasValue(m, "direction") then "_dir-" + Label(m["direction"]) else "")
           + (if HasValue(m, "reconstruction") then "_rec-" + Label(m["reconstruction"]) else "")
           + (if HasValue(m, "run") then "_run-" + Label(m["run"]) else "")
           + (if HasValue(m, "echo") then "_echo-" + Label(m["echo"]) else ""))
        + ("_" + (if kind == EventsFile then "events" else Label(m["suffix"])) + Extension(kind))
  {
    var e := FileNameEntities(m, kind);
    if MakeBidsFileName(m, kind).Some? {
      assert MakeBidsFileName(m, kind) == BuildFileName(e);
      SameEntityValues(m, kind);
      assert Label(e["suffix"]) + Label(e["extension"]) == (if kind == EventsFile then "events" else Label(m["suffix"])) + Extension(kind);
    }
  }

  /** The entities of the file-name template have the same values in the
      metadata and in the dictionary handed to the path builder. */
  lemma SameEntityValues(m: map<string, Value>, kind: FileKind)
    requires kind == EventsFile || "suffix" in m
    ensures var e := FileNameEntities(m, kind);
      && SameValue(e, m, "subject") && SameValue(e, m, "session") && SameValue(e, m, "task")
      && SameValue(e, m, "acquisition") && SameValue(e, m, "ceagent") && SameValue(e, m, "direction")
      && SameValue(e, m, "reconstruction") && SameValue(e, m, "run") && SameValue(e, m, "echo")
  {
    EntityTableKeyNames();
    FileNameTemplateEntities();
    EntityKeepsValue(m, kind, "subject");
    EntityKeepsValue(m, kind, "session");
    EntityKeepsValue(m, kind, "task");
    EntityKeepsValue(m, kind, "acquisition");
    EntityKeepsValue(m, kind, "ceagent");
    EntityKeepsValue(m, kind, "direction");
    EntityKeepsValue(m, kind, "reconstruction");
    EntityKeepsValue(m, kind, "run");
    EntityKeepsValue(m, kind, "echo");
  }

  /** An entity other than the suffix has the same value, or the same lack
      of one, in the metadata and in the path builder's dictionary. */
  lemma EntityKeepsValue(m: map<string, Value>, kind: FileKind, k: string)
    requires kind == EventsFile || "suffix" in m
    requires IsEntity(k) && k != "suffix"
    ensures SameValue(FileNameEntities(m, kind), m, k)
  {
    assert k in NonNullEntities(m) <==> HasValue(m, k);
  }

  /** `dataDirPath`: `sub-<subject>[/ses-<session>]/<datatype>`, the session
      part present exactly when the session has a value. */
  function DataDirPath(m: map<string, Value>): (r: Option<string>)
    ensures r.Some? <==> HasValue(m, "subject") && HasValue(m, "datatype")
    ensures r.Some? ==>
      r.value == "sub-" + Label(m["subject"])
        + (if HasValue(m, "session") then "/ses-" + Label(m["session"]) else "")
        + "/" + Label(m["datatype"])
  {
    BuildDirPath(m)
  }

  /** `imageFilePath`, `metadataFilePath`: the file name joined to the data
      directory. Here `None` stands for the `TypeError` that `os.path.join`
      raises when the directory or the name is `None`. */
  function FilePath(m: map<string, Value>, kind: FileKind): (r: Option<string>)
    requires kind == EventsFile || "suffix" in m
    ensures r.Some? <==> DataDirPath(m).Some? && MakeBidsFileName(m, kind).Some?
    ensures r.Some? ==> r.value == DataDirPath(m).value + "/" + MakeBidsFileName(m, kind).value
  {
    match (DataDirPath(m), MakeBidsFileName(m, kind))
    case (Some(dir), Some(name)) => Some(dir + "/" + name)
    case _ => None
  }

  /** The metadata written to the JSON sidecar: every key that is not an
      entity. */
  function SidecarMetadata(m: map<string, Value>): (s: map<string, Value>)
    ensures forall k :: k in s <==> k in m && !IsEntity(k)
    ensures forall k :: k in s ==> s[k] == m[k]
  {
    map k | k in m && !IsEntity(k) :: m[k]
  }

  /** Entity keys and sidecar keys partition the metadata: disjoint, and
      together they give back the whole dictionary. */
  lemma EntitiesAndSidecarPartition(m: map<string, Value>)
    ensures FilterEntities(m).Keys !! SidecarMetadata(m).Keys
    ensures FilterEntities(m).Keys + SidecarMetadata(m).Keys == m.Keys
    ensures FilterEntities(m) + SidecarMetadata(m) == m
  {
  }

  /** The file name depends on nothing but the non-`None` entities, the
      kind, and (for a non-events file) the suffix. */
  lemma FileNameDeterminedByEntities(m1: map<string, Value>, m2: map<string, Value>, kind: FileKind)
    requires kind == EventsFile || ("suffix" in m1 && "suffix" in m2 && m1["suffix"] == m2["suffix"])
    requires NonNullEntities(m1) == NonNullEntities(m2)
    ensures MakeBidsFileName(m1, kind) == MakeBidsFileName(m2, kind)
  {
  }

  /** Setting a non-entity field other than the suffix renames nothing. */
  lemma SetNonEntityKeepsFileName(m: map<string, Value>, field: string, value: Value, kind: FileKind)
    requires kind == EventsFile || "suffix" in m
    requires !IsEntity(field) && field != "suffix"
    ensures MakeBidsFileName(m[field := value], kind) == MakeBidsFileName(m, kind)
  {
    assert NonNullEntities(m[field := value]) == NonNullEntities(m);
    FileNameDeterminedByEntities(m[field := value], m, kind);
  }

  /** `key` has a value in both maps, the same one, or in neither. */
  predicate SameValue(m1: map<string, Value>, m2: map<string, Value>, key: string) {
    HasValue(m1, key) == HasValue(m2, key) && (HasValue(m1, key) ==> m1[key] == m2[key])
  }

  /** The data directory depends on nothing but subject, session and
      datatype. */
  lemma DataDirPathDeterminedByFields(m1: map<string, Value>, m2: map<string, Value>)
    requires SameValue(m1, m2, "subject") && SameValue(m1, m2, "session") && SameValue(m1, m2, "datatype")
    ensures DataDirPath(m1) == DataDirPath(m2)
  {
  }

  /** Setting any field other than subject, session and datatype leaves the
      data directory unchanged. */
  lemma SetOtherFieldKeepsDataDirPath(m: map<string, Value>, field: string, value: Value)
    requires field != "subject" && field != "session" && field != "datatype"
    ensures DataDirPath(m[field := value]) == DataDirPath(m)
  {
    DataDirPathDeterminedByFields(m[field := value], m);
  }
}
