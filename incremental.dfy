/** The BIDS incremental: one 4-D NIfTI image, its BIDS image metadata and the
    dataset description, built and validated at construction. In this model
    metadata values are immutable values, so after construction the state
    changes only through the metadata field operations. */
module Incremental {
  import opened Wrappers
  import opened PyValues
  import opened BidsCommon
  import opened Errors
  import opened NiftiImage
  import opened Metadata
  import Naming

  const Readme: string := "Generated BIDS-Incremental Dataset from RT-Cloud"
  const EventColumns: seq<string> := ["onset", "duration", "response_time"]
  /** The BIDS-I version used for serialisation. */
  const FormatVersion: nat := 1

  /** Everything an incremental holds, as a value. */
  datatype IncrementalState = IncrementalState(
    imageMetadata: map<string, Value>,
    datasetMetadata: map<string, Value>,
    image: Image,
    readme: string,
    eventColumns: seq<string>,
    version: nat)

  // ---------------------------------------------------------------------
  // Image-shape normalisation

  /** The image the constructor stores, or the error it raises: squeezed,
      rejected below three axes, given a trailing unit axis and
      `pixdim[4] := RepetitionTime` at exactly three axes, and required to
      end with four axes. */
  function NormalizeImage(img: Image, repetitionTime: Value): (r: Result<Image, Error>)
    ensures r.Success? ==> Rank(r.value) == 4 && r.value.data == img.data && r.value.format == img.format
    ensures r.Failure? ==> r.error.TooFewDimensions? || r.error.RepetitionTimeNotNumeric? || r.error.NotFourDimensional?
  {
    var squeezed := SqueezeImage(img);
    var rank := Rank(squeezed);
    if rank < 3 then Failure(TooFewDimensions(rank))
    else if rank == 3 then
      match AsFloat(repetitionTime)
      case None => Failure(RepetitionTimeNotNumeric(repetitionTime))
      case Some(tr) =>
        var expanded := ExpandDims(squeezed);
        Success(expanded.(header := expanded.header.(pixdim := expanded.header.pixdim[4 := tr])))
    else if rank != 4 then Failure(NotFourDimensional(rank))
    else Success(squeezed)
  }

  /** The shape rules: fewer than three axes is refused exactly when the
      image had fewer than three to begin with; three axes after squeezing
      gain a trailing unit axis, keep `pixdim[0..3]`, get the repetition time
      in `pixdim[4]` (NaN for `None`) and 1.0 past it, and are refused only
      for a value numpy cannot store as a float; four axes are kept, with
      the header untouched when nothing was squeezed; more than four are
      refused. */
  lemma NormalizeImageShapes(img: Image, repetitionTime: Value)
    ensures var r := NormalizeImage(img, repetitionTime);
      var squeezed := SqueezeShape(img.header.shape);
      && (r.Failure? && r.error.TooFewDimensions? <==> Rank(img) < 3)
      && (|squeezed| == 3 && AsFloat(repetitionTime).Some? ==>
            && r.Success? && r.value.header.shape == squeezed + [1]
            && forall i :: 0 <= i < 8 ==>
                 (r.value.header.pixdim[i] ==
                   if i < 4 then img.header.pixdim[i]
                   else if i == 4 then AsFloat(repetitionTime).value
                   else Finite(1.0)))
      && (r.Failure? && r.error.RepetitionTimeNotNumeric? <==> |squeezed| == 3 && AsFloat(repetitionTime).None?)
      && (|squeezed| == 4 ==> r == Success(SqueezeImage(img)) && (Rank(img) == 4 ==> r.value.header == img.header))
      && (r.Failure? && r.error.NotFourDimensional? <==> |squeezed| > 4)
  {
  }

  /** A 4-D image comes out with the shape it went in with, even when its
      last axis has length 1 and is squeezed away and added back. */
  lemma FourDimensionalShapeKept(img: Image, repetitionTime: Value)
    requires Rank(img) == 4
    requires NormalizeImage(img, repetitionTime).Success?
    ensures NormalizeImage(img, repetitionTime).value.header.shape == img.header.shape
  {
    var shape := img.header.shape;
    var squeezed := SqueezeShape(shape);
    if |squeezed| == 3 {
      assert shape[3] == 1;
      assert squeezed + [1] == shape;
    }
  }

  // ---------------------------------------------------------------------
  // Construction

  /** What `BidsIncremental(image, imageMetadata, datasetMetadata)` stores,
      or the first error it raises, checked in the constructor's order:
      image type, dataset description, required metadata, run coercion,
      image shape. */
  function Construct(image: Option<Image>, imageMetadata: map<string, Value>,
                     datasetMetadata: Option<map<string, Value>>): (r: Result<IncrementalState, Error>)
    ensures r.Success? ==> IsCompleteImageMetadata(r.value.imageMetadata)
    ensures r.Success? ==> Rank(r.value.image) == 4
    ensures r.Success? ==> IsCompleteDatasetDescription(r.value.datasetMetadata)
  {
    DefaultDatasetDescriptionIsComplete();
    if image.None? || image.value.format == OtherFormat then Failure(NotNiftiImage)
    else if datasetMetadata.None? then Initialized(image.value, imageMetadata, DefaultDatasetDescription)
    else if MissingDatasetFields(datasetMetadata.value) != [] then
      Failure(DatasetMetadataMissing(MissingDatasetFields(datasetMetadata.value)))
    else
      NoDatasetFieldsMissingIffComplete(datasetMetadata.value);
      Initialized(image.value, imageMetadata, datasetMetadata.value)
  }

  /** The constructor once the image type and the dataset description have
      passed: the metadata stages, then the image stages, then the fixed
      readme, event columns and version. */
  function Initialized(img: Image, imageMetadata: map<string, Value>,
                       description: map<string, Value>): (r: Result<IncrementalState, Error>)
    ensures r.Success? ==> IsCompleteImageMetadata(r.value.imageMetadata)
    ensures r.Success? ==> Rank(r.value.image) == 4
    ensures r.Success? ==> r.value.datasetMetadata == description
  {
    match NormalizeMetadata(imageMetadata)
    case Failure(e) => Failure(e)
    case Success(meta) =>
      match NormalizeImage(img, meta["RepetitionTime"])
      case Failure(e) => Failure(e)
      case Success(normalized) =>
        Success(IncrementalState(meta, description, normalized, Readme, EventColumns, FormatVersion))
  }

  /** The later stages never raise the input-check errors. */
  lemma InitializedErrors(img: Image, imageMetadata: map<string, Value>, description: map<string, Value>)
    ensures var r := Initialized(img, imageMetadata, description);
      r.Failure? ==> !r.error.NotNiftiImage? && !r.error.DatasetMetadataMissing?
  {
  }

  /** A failing stage is the error of the whole. */
  lemma InitializedFails(img: Image, imageMetadata: map<string, Value>, description: map<string, Value>)
    ensures NormalizeMetadata(imageMetadata).Failure? ==>
      Initialized(img, imageMetadata, description) == Failure(NormalizeMetadata(imageMetadata).error)
    ensures NormalizeMetadata(imageMetadata).Success? ==>
      var meta := NormalizeMetadata(imageMetadata).value;
      NormalizeImage(img, meta["RepetitionTime"]).Failure? ==>
        Initialized(img, imageMetadata, description) == Failure(NormalizeImage(img, meta["RepetitionTime"]).error)
  {
  }

  /** When both stages succeed, the constructor stores the normalised
      metadata, the description, the normalised image and the fixed readme,
      event columns and version. */
  lemma InitializedSucceeds(img: Image, imageMetadata: map<string, Value>, description: map<string, Value>,
                            meta: map<string, Value>, normalized: Image)
    requires NormalizeMetadata(imageMetadata) == Success(meta)
    requires "RepetitionTime" in meta && NormalizeImage(img, meta["RepetitionTime"]) == Success(normalized)
    ensures Initialized(img, imageMetadata, description) ==
      Success(IncrementalState(meta, description, normalized, Readme, EventColumns, FormatVersion))
  {
  }

  /** The input checks: a type error exactly for a missing or non-NIfTI
      image; otherwise a dataset error exactly for a supplied description
      with a required field absent or `None`, naming those fields. */
  lemma ConstructInputErrors(image: Option<Image>, imageMetadata: map<string, Value>,
                             datasetMetadata: Option<map<string, Value>>)
    ensures var r := Construct(image, imageMetadata, datasetMetadata);
      var imageOk := image.Some? && image.value.format != OtherFormat;
      && (r == Failure(NotNiftiImage) <==> !imageOk)
      && (r.Failure? && r.error.DatasetMetadataMissing? <==>
            imageOk && datasetMetadata.Some? && !IsCompleteDatasetDescription(datasetMetadata.value))
      && (r.Failure? && r.error.DatasetMetadataMissing? ==>
            r.error.datasetFields == MissingDatasetFields(datasetMetadata.value))
  {
    var r := Construct(image, imageMetadata, datasetMetadata);
    if image.None? || image.value.format == OtherFormat {
      assert r == Failure(NotNiftiImage);
    } else if datasetMetadata.Some? && MissingDatasetFields(datasetMetadata.value) != [] {
      NoDatasetFieldsMissingIffComplete(datasetMetadata.value);
      assert r == Failure(DatasetMetadataMissing(MissingDatasetFields(datasetMetadata.value)));
    } else {
      var description := if datasetMetadata.Some? then datasetMetadata.value else DefaultDatasetDescription;
      if datasetMetadata.Some? {
        NoDatasetFieldsMissingIffComplete(datasetMetadata.value);
      }
      assert r == Initialized(image.value, imageMetadata, description);
      InitializedErrors(image.value, imageMetadata, description);
    }
  }

  /** Past the input checks, a missing-metadata error is raised exactly when
      a required key is absent from the merge of ProtocolName fields,
      placeholder and caller's fields, and it names every absent field. */
  lemma ConstructMetadataErrors(image: Option<Image>, imageMetadata: map<string, Value>,
                                datasetMetadata: Option<map<string, Value>>)
    requires image.Some? && image.value.format != OtherFormat
    requires datasetMetadata.None? || IsCompleteDatasetDescription(datasetMetadata.value)
    ensures var r := Construct(image, imageMetadata, datasetMetadata);
      && (r.Failure? && r.error.ImageMetadataMissing? <==> !IsCompleteImageMetadata(MergedMetadata(imageMetadata)))
      && (r.Failure? && r.error.ImageMetadataMissing? ==>
            r.error.imageFields == MissingImageMetadata(MergedMetadata(imageMetadata)))
  {
    var description := if datasetMetadata.Some? then datasetMetadata.value else DefaultDatasetDescription;
    if datasetMetadata.Some? {
      NoDatasetFieldsMissingIffComplete(datasetMetadata.value);
    }
    var r := Initialized(image.value, imageMetadata, description);
    assert Construct(image, imageMetadata, datasetMetadata) == r;
    MissingMetadataIffIncomplete(imageMetadata);
    match NormalizeMetadata(imageMetadata)
    case Failure(e) =>
      assert r == Failure(e);
    case Success(meta) =>
      var n := NormalizeImage(image.value, meta["RepetitionTime"]);
      assert r.Failure? ==> r == Failure(n.error);
  }

  /** A constructed incremental holds the normalised metadata (TaskName is
      task, a non-`None` run is an int, the caller's other fields as given),
      the supplied description or the default one, and a 4-D image with the
      input's voxels. */
  lemma ConstructedState(image: Option<Image>, imageMetadata: map<string, Value>,
                         datasetMetadata: Option<map<string, Value>>)
    requires Construct(image, imageMetadata, datasetMetadata).Success?
    ensures var s := Construct(image, imageMetadata, datasetMetadata).value;
      && "TaskName" in s.imageMetadata && s.imageMetadata["TaskName"] == s.imageMetadata["task"]
      && (HasValue(s.imageMetadata, "run") ==> s.imageMetadata["run"].Int?)
      && (forall k :: k in imageMetadata && k !in {"run", "TaskName", "RepetitionTime", "EchoTime"} ==>
            s.imageMetadata[k] == imageMetadata[k])
      && s.datasetMetadata == (if datasetMetadata.Some? then datasetMetadata.value else DefaultDatasetDescription)
      && Rank(s.image) == 4 && s.image.data == image.value.data
  {
    var description := if datasetMetadata.Some? then datasetMetadata.value else DefaultDatasetDescription;
    var s := Construct(image, imageMetadata, datasetMetadata).value;
    assert Construct(image, imageMetadata, datasetMetadata) == Initialized(image.value, imageMetadata, description);
    var meta := NormalizeMetadata(imageMetadata).value;
    assert s.imageMetadata == meta;
    assert s.image == NormalizeImage(image.value, meta["RepetitionTime"]).value;
    NormalizedMetadataFacts(imageMetadata);
  }

  // ---------------------------------------------------------------------
  // Equality

  /** Which of the four compared parts first differs. */
  datatype Comparison = Same | HeadersDiffer | ImageMetadataDiffers | DatasetMetadataDiffers | ImageDataDiffers

  /** `__eq__`: headers, then image metadata, then dataset metadata, then
      voxel data, stopping at the first mismatch. A NIfTI-1 header never
      equals a NIfTI-2 header, so the image class is part of the header
      step. The two metadata steps are Python dict comparisons, so `2` and
      `2.0`, or `True` and `1`, count as the same value. */
  function Compare(a: IncrementalState, b: IncrementalState): (c: Comparison)
    ensures c == Same <==> a.image.header == b.image.header && a.image.format == b.image.format
                           && DictEq(a.imageMetadata, b.imageMetadata)
                           && DictEq(a.datasetMetadata, b.datasetMetadata) && a.image.data == b.image.data
    ensures c == HeadersDiffer <==> a.image.header != b.image.header || a.image.format != b.image.format
    ensures c == ImageMetadataDiffers <==> c != HeadersDiffer && !DictEq(a.imageMetadata, b.imageMetadata)
  {
    if a.image.header != b.image.header || a.image.format != b.image.format then HeadersDiffer
    else if !DictEq(a.imageMetadata, b.imageMetadata) then ImageMetadataDiffers
    else if !DictEq(a.datasetMetadata, b.datasetMetadata) then DatasetMetadataDiffers
    else if a.image.data != b.image.data then ImageDataDiffers
    else Same
  }

  /** Equality is an equivalence, reports the same first difference in both
      directions, and ignores the readme, events and version. */
  lemma CompareIsEquivalence(a: IncrementalState, b: IncrementalState, c: IncrementalState)
    ensures Compare(a, a) == Same
    ensures Compare(a, b) == Compare(b, a)
    ensures Compare(a, b) == Same && Compare(b, c) == Same ==> Compare(a, c) == Same
    ensures Compare(a, a.(readme := b.readme, eventColumns := b.eventColumns, version := b.version)) == Same
  {
    DictEqIsEquivalence(a.imageMetadata, b.imageMetadata, c.imageMetadata);
    DictEqIsEquivalence(b.imageMetadata, a.imageMetadata, c.imageMetadata);
    DictEqIsEquivalence(a.datasetMetadata, b.datasetMetadata, c.datasetMetadata);
    DictEqIsEquivalence(b.datasetMetadata, a.datasetMetadata, c.datasetMetadata);
  }

  /** Two incrementals whose metadata hold the same numbers under different
      Python types (an int where the other has a float or a bool) compare
      equal, as Python's dict `==` makes them. */
  lemma CompareNumbersAcrossTypes(a: IncrementalState, key: string, x: Value, y: Value)
    requires AsReal(x).Some? && AsReal(x) == AsReal(y)
    ensures Compare(a.(imageMetadata := a.imageMetadata[key := x]), a.(imageMetadata := a.imageMetadata[key := y])) == Same
  {
    DictEqIsEquivalence(a.imageMetadata, a.imageMetadata, a.imageMetadata);
    DictEqIsEquivalence(a.datasetMetadata, a.datasetMetadata, a.datasetMetadata);
  }

  // ---------------------------------------------------------------------
  // The object

  class BidsIncremental {
    var imgMetadata: map<string, Value>
    var datasetMetadata: map<string, Value>
    var image: Image
    var readme: string
    var eventColumns: seq<string>
    var version: nat

    /** What every constructed incremental satisfies from then on. */
    ghost predicate Valid()
      reads this
    {
      && IsCompleteImageMetadata(imgMetadata)
      && Rank(image) == 4
      && IsCompleteDatasetDescription(datasetMetadata)
    }

    function State(): IncrementalState
      reads this
    {
      IncrementalState(imgMetadata, datasetMetadata, image, readme, eventColumns, version)
    }

    /** The object as allocated, before the constructor body runs. */
    constructor Allocate(img: Image)
      ensures image == img && imgMetadata == map[] && datasetMetadata == map[]
      ensures readme == "" && eventColumns == [] && version == 0
    {
      image := img;
      imgMetadata := map[];
      datasetMetadata := map[];
      readme := "";
      eventColumns := [];
      version := 0;
    }

    /** `__init__`: validates the image type and the dataset description,
        builds the metadata step by step, stores the description, then
        squeezes and, for a 3-D image, extends the image. */
    static method Create(image: Option<Image>, imageMetadata: map<string, Value>,
                         datasetMetadata: Option<map<string, Value>>)
      returns (r: Result<BidsIncremental, Error>)
      ensures r.Failure? <==> Construct(image, imageMetadata, datasetMetadata).Failure?
      ensures r.Failure? ==> r.error == Construct(image, imageMetadata, datasetMetadata).error
      ensures r.Success? ==> fresh(r.value) && r.value.Valid()
      ensures r.Success? ==> r.value.State() == Construct(image, imageMetadata, datasetMetadata).value
    {
      if image.None? || image.value.format == OtherFormat {
        return Failure(NotNiftiImage);
      }
      var description := DefaultDatasetDescription;
      if datasetMetadata.Some? {
        var missingFields := MissingDatasetFields(datasetMetadata.value);
        if missingFields != [] {
          return Failure(DatasetMetadataMissing(missingFields));
        }
        description := datasetMetadata.value;
      }
      var inc := new BidsIncremental.Allocate(image.value);
      var outcome := inc.Initialize(image.value, imageMetadata, description);
      if outcome.Fail? {
        return Failure(outcome.error);
      }
      return Success(inc);
    }

    /** The rest of `__init__`: the metadata, the dataset description, the
        image, then the readme, event columns and version. */
    method Initialize(img: Image, imageMetadata: map<string, Value>, description: map<string, Value>)
      returns (o: Outcome<Error>)
      modifies this
      ensures o.Fail? <==> Initialized(img, imageMetadata, description).Failure?
      ensures o.Fail? ==> o.error == Initialized(img, imageMetadata, description).error
      ensures o.Pass? ==> State() == Initialized(img, imageMetadata, description).value
    {
      InitializedFails(img, imageMetadata, description);
      var metadataOutcome := InitializeMetadata(imageMetadata);
      if metadataOutcome.Fail? {
        return metadataOutcome;
      }
      ghost var meta := imgMetadata;
      o := InitializeRest(img, description);
      if o.Pass? {
        InitializedSucceeds(img, imageMetadata, description, meta, image);
      }
    }

    /** What `__init__` does once the metadata is in place: store the
        dataset description, normalise the image, then set the readme, event
        columns and version. */
    method InitializeRest(img: Image, description: map<string, Value>) returns (o: Outcome<Error>)
      requires "RepetitionTime" in imgMetadata
      modifies this`datasetMetadata, this`image, this`readme, this`eventColumns, this`version
      ensures o.Fail? <==> NormalizeImage(img, imgMetadata["RepetitionTime"]).Failure?
      ensures o.Fail? ==> o.error == NormalizeImage(img, imgMetadata["RepetitionTime"]).error
      ensures o.Pass? ==> State() == IncrementalState(imgMetadata, description,
        NormalizeImage(img, imgMetadata["RepetitionTime"]).value, Readme, EventColumns, FormatVersion)
    {
      datasetMetadata := description;
      o := InitializeImage(img);
      if o.Fail? {
        return;
      }
      readme := Readme;
      eventColumns := EventColumns;
      version := FormatVersion;
    }

    /** The metadata half of `__init__`: pre-processing, the required-field
        check, then post-processing. */
    method InitializeMetadata(raw: map<string, Value>) returns (o: Outcome<Error>)
      modifies this`imgMetadata
      ensures o.Fail? <==> NormalizeMetadata(raw).Failure?
      ensures o.Fail? ==> o.error == NormalizeMetadata(raw).error
      ensures o.Pass? ==> imgMetadata == NormalizeMetadata(raw).value
    {
      PreprocessAndSetMetadata(raw);
      var required := AssertHaveRequiredMetadata();
      if required.Fail? {
        return required;
      }
      o := PostprocessMetadata();
    }

    /** The image half of `__init__`: squeeze, refuse fewer than three axes,
        extend a 3-D image with a unit time axis whose spacing is the
        repetition time, and insist on four axes. */
    method InitializeImage(img: Image) returns (o: Outcome<Error>)
      requires "RepetitionTime" in imgMetadata
      modifies this`image
      ensures o.Fail? <==> NormalizeImage(img, imgMetadata["RepetitionTime"]).Failure?
      ensures o.Fail? ==> o.error == NormalizeImage(img, imgMetadata["RepetitionTime"]).error
      ensures o.Pass? ==> image == NormalizeImage(img, imgMetadata["RepetitionTime"]).value
    {
      image := SqueezeImage(img);
      var rank := Rank(image);
      if rank < 3 {
        return Fail(TooFewDimensions(rank));
      } else if rank == 3 {
        image := ExpandDims(image);
        var repetitionTime := GetMetadataField("RepetitionTime", false);
        var tr := AsFloat(repetitionTime.value);
        if tr.None? {
          return Fail(RepetitionTimeNotNumeric(repetitionTime.value));
        }
        image := image.(header := image.header.(pixdim := image.header.pixdim[4 := tr.value]));
      }
      if Rank(image) != 4 {
        return Fail(NotFourDimensional(Rank(image)));
      }
      return Pass;
    }

    /** `_preprocessAndSetMetadata`: the ProtocolName fields, then the
        SliceTiming placeholder, then the caller's fields over both, then the
        time units adjusted. */
    method PreprocessAndSetMetadata(raw: map<string, Value>)
      modifies this`imgMetadata
      ensures imgMetadata == PreprocessMetadata(raw)
    {
      imgMetadata := MetadataFromProtocolName(ProtocolNameOf(raw));
      imgMetadata := imgMetadata["SliceTiming" := SliceTimingPlaceholder];
      imgMetadata := imgMetadata + raw;
      imgMetadata := AdjustTimeUnits(imgMetadata);
    }

    /** `_assertHaveRequiredMetadata`: fails, naming every missing field,
        unless all required fields are keys. */
    method AssertHaveRequiredMetadata() returns (o: Outcome<Error>)
      ensures o.Fail? <==> !IsCompleteImageMetadata(imgMetadata)
      ensures o.Fail? ==> o.error == ImageMetadataMissing(MissingImageMetadata(imgMetadata))
    {
      var missing := MissingImageMetadata(imgMetadata);
      if missing != [] {
        return Fail(ImageMetadataMissing(missing));
      }
      return Pass;
    }

    /** `_postprocessMetadata`: `run` through `int()`, then `TaskName`
        from `task`. */
    method PostprocessMetadata() returns (o: Outcome<Error>)
      requires "task" in imgMetadata
      modifies this`imgMetadata
      ensures o.Fail? <==> Metadata.PostprocessMetadata(old(imgMetadata)).Failure?
      ensures o.Fail? ==> o.error == Metadata.PostprocessMetadata(old(imgMetadata)).error && imgMetadata == old(imgMetadata)
      ensures o.Pass? ==> imgMetadata == Metadata.PostprocessMetadata(old(imgMetadata)).value
    {
      if HasValue(imgMetadata, "run") {
        var run := PyInt(imgMetadata["run"]);
        if run.None? {
          return Fail(RunNotInteger(imgMetadata["run"]));
        }
        imgMetadata := imgMetadata["run" := Int(run.value)];
      }
      imgMetadata := imgMetadata["TaskName" := imgMetadata["task"]];
      return Pass;
    }

    /** `getMetadataField`. */
    function GetMetadataField(field: string, strict: bool): Result<Value, Error>
      reads this
    {
      GetField(imgMetadata, field, strict)
    }

    /** `setMetadataField`: a strict set of a non-entity, or an empty name,
        fails and changes nothing; otherwise only `field` changes. */
    method SetMetadataField(field: string, value: Value, strict: bool) returns (o: Outcome<Error>)
      requires Valid()
      modifies this`imgMetadata
      ensures Valid()
      ensures o.Fail? <==> SetField(old(imgMetadata), field, value, strict).Failure?
      ensures o.Fail? ==> o.error == SetField(old(imgMetadata), field, value, strict).error && imgMetadata == old(imgMetadata)
      ensures o.Pass? ==> imgMetadata == SetField(old(imgMetadata), field, value, strict).value
    {
      ghost var spec := SetField(imgMetadata, field, value, strict);
      FieldUpdatesKeepComplete(imgMetadata, field, value, strict);
      if strict && !IsEntity(field) {
        assert spec == Failure(NotBidsEntity(field));
        return Fail(NotBidsEntity(field));
      }
      if field != "" {
        imgMetadata := imgMetadata[field := value];
        assert spec == Success(imgMetadata);
        return Pass;
      }
      assert spec == Failure(EmptyFieldName);
      return Fail(EmptyFieldName);
    }

    /** `removeMetadataField`: a required field is never removed, strict or
        not; a strict removal of a non-entity fails; otherwise the key is
        dropped if present. */
    method RemoveMetadataField(field: string, strict: bool) returns (o: Outcome<Error>)
      requires Valid()
      modifies this`imgMetadata
      ensures Valid()
      ensures o.Fail? <==> RemoveField(old(imgMetadata), field, strict).Failure?
      ensures o.Fail? ==> o.error == RemoveField(old(imgMetadata), field, strict).error && imgMetadata == old(imgMetadata)
      ensures o.Pass? ==> imgMetadata == RemoveField(old(imgMetadata), field, strict).value
    {
      ghost var spec := RemoveField(imgMetadata, field, strict);
      FieldUpdatesKeepComplete(imgMetadata, field, Null, strict);
      if IsRequired(field) {
        assert spec == Failure(RequiredFieldRemoval(field));
        return Fail(RequiredFieldRemoval(field));
      }
      if strict && !IsEntity(field) {
        assert spec == Failure(NotBidsEntity(field));
        return Fail(NotBidsEntity(field));
      }
      imgMetadata := imgMetadata - {field};
      assert spec == Success(imgMetadata);
      return Pass;
    }

    /** `imageMetadata`: the metadata as a value, so changing the copy leaves
        the incremental as it was. */
    function ImageMetadata(): map<string, Value>
      reads this
    {
      imgMetadata
    }

    /** `entities`. */
    function Entities(): map<string, Value>
      reads this
    {
      FilterEntities(imgMetadata)
    }

    /** `makeBidsFileName`; `imageFileName`, `metadataFileName` and
        `eventsFileName` are its three kinds. */
    function MakeBidsFileName(kind: FileKind): Option<string>
      requires Valid()
      reads this
    {
      Naming.MakeBidsFileName(imgMetadata, kind)
    }

    /** `dataDirPath`. */
    function DataDirPath(): Option<string>
      reads this
    {
      Naming.DataDirPath(imgMetadata)
    }

    /** `imageFilePath` and `metadataFilePath`. */
    function FilePath(kind: FileKind): Option<string>
      requires Valid()
      reads this
    {
      Naming.FilePath(imgMetadata, kind)
    }

    /** The metadata `writeToArchive` puts in the JSON sidecar. */
    function SidecarMetadata(): map<string, Value>
      reads this
    {
      Naming.SidecarMetadata(imgMetadata)
    }

    /** `__eq__`. */
    function Equals(other: BidsIncremental): bool
      reads this, other
    {
      Compare(State(), other.State()) == Same
    }
  }
}
