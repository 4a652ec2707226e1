# BIDS Incremental — a Dafny model

This project models the BIDS Incremental (BIDS-I) of RT-Cloud. A BIDS-I is one
streamable unit of a BIDS dataset. It holds one NIfTI image, normalised to four
axes, the image's BIDS metadata and the dataset description. From that metadata
it derives BIDS file names and paths.

The model covers these parts of the BIDS-I:

- **Construction.** The type check on the image comes first, then the
  dataset-description check. The metadata is built step by step:
  - fields read from the `ProtocolName`;
  - the `SliceTiming` placeholder;
  - the caller's fields over both;
  - time units fixed;
  - the required-field check;
  - `run` coerced to an integer and `TaskName` set from `task`.

  Last, the image is squeezed, extended from 3-D to 4-D if needed, and
  checked for four axes.
- **Field operations.** Metadata get, set and remove, with their `strict`
  (entity names only) mode. Required fields can never be removed.
- **Metadata views.** The required-field helpers
  (`missingImageMetadata`, `isCompleteImageMetadata`,
  `createImageMetadataDict`) and the copy and entity views.
- **Naming.** The file name and data directory built from the entity fields,
  and the sidecar selection that keeps the non-entity keys.
- **Equality.** `__eq__`, which compares four parts in a fixed order.

Modules, one file each:

| file | module | contents |
|---|---|---|
| `wrappers.dfy` | `Wrappers` | `Option`, `Result`, and `Outcome` (the result of a method that returns nothing but may raise) |
| `values.dfy` | `PyValues` | Python metadata values and the conversions applied to them: `int()`, `str()` in a label, and storing into a float header |
| `errors.dfy` | `Errors` | one constructor per exception the BIDS-I raises |
| `image.dfy` | `NiftiImage` | image class, shape, `pixdim`, voxels; nibabel's squeeze; `expand_dims` |
| `bids_common.dfy` | `BidsCommon` | stand-ins for the helpers the BIDS-I imports from `rtCommon/bidsCommon.py` (see "Left out") |
| `metadata.dfy` | `Metadata` | required fields, construction-time normalisation, dataset-description check, field operations on a metadata map |
| `naming.dfy` | `Naming` | file name, data directory, file paths, sidecar selection |
| `incremental.dfy` | `Incremental` | the constructor as a function (`Construct`), equality, and the class `BidsIncremental` |

The class `Incremental.BidsIncremental` has the Python object's fields.
- `Create` is `__init__`. It allocates the object, then runs the same steps
  as methods that update `imgMetadata` and `image` in place.
- `Create` is proved to agree with the function `Construct`: the same error,
  or the same stored state.
- `SetMetadataField` and `RemoveMetadataField` change only `imgMetadata`.
  They are proved to agree with the functions `SetField` and `RemoveField`.
  They keep the invariant `Valid()`: all six required keys present, a 4-D
  image, and a complete dataset description.

Three behaviours of the code that the model follows as written:

- **When the required fields are checked.** The check runs after the time
  units are fixed but before `run` is coerced and `TaskName` is set
  (`rtCommon/bidsIncremental.py:82-84`). So a missing field is reported
  even when `run` is malformed too.
- **The `SliceTiming` placeholder.** It is always 27 points evenly spaced over
  [0, 1.5] (`rtCommon/bidsIncremental.py:184`), whatever the repetition
  time.
- **Squeezing.** nibabel's `squeeze_image` drops only trailing length-1 axes
  beyond the third (`rtCommon/bidsIncremental.py:94`), so a length-1 axis
  among the first three stays.

When nibabel builds an image on data of a new shape (the squeeze at line 94
and the re-wrapping at line 103), it updates the header for that shape and
resets every `pixdim` entry past the new rank to 1.0. So a 3-D result keeps
`pixdim[0..3]`, gets the repetition time in `pixdim[4]` (lines 109-110) and
1.0 in `pixdim[5..7]`.

## Model

| member | source | states |
|---|---|---|
| PyValues.ParseIntOfIntToString | rtCommon/bidsIncremental.py:199 | `int(str(i)) == i` for every integer `i`, so a run written as text converts back to the same integer |
| PyValues.Truncate | rtCommon/bidsIncremental.py:199 | `int()` of a float truncates toward zero: the result is the integer between zero and `x` that is less than one away from `x` |
| PyValues.PyInt | rtCommon/bidsIncremental.py:199 | `int(v)` keeps an int, truncates a float toward zero, turns a bool into 1 or 0, parses a string as `ParseInt` does, and fails on `None` and on lists |
| PyValues.AsReal | rtCommon/bidsIncremental.py:189 | the number an int, float or bool stands for, and none for a string, `None` or list: what the time-unit fix compares and rescales |
| PyValues.PyEqKinds | rtCommon/bidsIncremental.py:145 | Python's `==` on values: `None` and strings equal only themselves, a number equals any int, float or bool with the same value, and lists are equal element by element |
| PyValues.PyEqIsEquivalence | rtCommon/bidsIncremental.py:145 | Python's `==` on metadata values is reflexive, symmetric and transitive, for nested lists too |
| PyValues.DictEqIsEquivalence | rtCommon/bidsIncremental.py:145-153 | dict `==` (same keys, `==` values) is reflexive, symmetric and transitive |
| PyValues.AsFloat | rtCommon/bidsIncremental.py:109-110 | what `pixdim[4] = RepetitionTime` stores: NaN exactly for `None`, the number for an int, float or bool, and nothing (numpy raises) for a string or list |
| NiftiImage.SqueezeShape | rtCommon/bidsIncremental.py:94 | the squeeze leaves fewer than four axes alone and never drops below three; only trailing length-1 axes go, and the result is a prefix of the shape with no trailing length-1 axis beyond the third |
| NiftiImage.SetDataShape | rtCommon/bidsIncremental.py:94-104 | the header nibabel gives an image built on data of a new shape: that shape, `pixdim` kept up to the new rank and 1.0 past it |
| NiftiImage.SqueezeImage | rtCommon/bidsIncremental.py:94 | the squeezed image has the squeezed shape, voxels and class; unchanged when nothing is squeezed; otherwise `pixdim` kept up to the new rank and 1.0 past it |
| NiftiImage.ExpandDims | rtCommon/bidsIncremental.py:102-104 | the new image has one more axis, of length 1 at the end, the same voxels and class, and `pixdim` kept up to the new rank and 1.0 past it |
| BidsCommon.EntityTableLowerCase | tests/test_bidsCommon.py:14-20 | the entity table has 20 names, all lower case |
| BidsCommon.EntityTableKeyNames | rtCommon/bidsIncremental.py:287-288 | subject, task, session and run are entities; RepetitionTime, EchoTime, TaskName, suffix and datatype are not |
| BidsCommon.CapitalisedIsNotEntity | tests/test_bidsCommon.py:18-20 | a name starting with an upper-case letter is never an entity |
| BidsCommon.FilterEntities | rtCommon/bidsIncremental.py:345-349 | the entity view holds exactly the entity keys of the metadata, with their values |
| BidsCommon.MetadataFromProtocolName | rtCommon/bidsIncremental.py:175-176 | a ProtocolName yields only session, task and run keys, and a missing or non-string ProtocolName yields none |
| BidsCommon.ProtocolNameFieldKeys | rtCommon/bidsIncremental.py:175-176 | a ProtocolName yields at most session, task and run, each a string |
| BidsCommon.AdjustTimeUnits | rtCommon/bidsIncremental.py:189 | the time-unit fix adds and removes no key |
| BidsCommon.AdjustTimeUnitsValues | rtCommon/bidsIncremental.py:189 | only RepetitionTime and EchoTime can change, each to its value in seconds; every other field keeps its value |
| BidsCommon.BuildFileName | rtCommon/bidsIncremental.py:377-379 | a name exists exactly when subject, task, suffix and extension have values; it is `sub-<subject>`, then `_ses-`, `_task-`, `_acq-`, `_ce-`, `_dir-`, `_rec-`, `_run-` and `_echo-` parts in the template's order (the task part always, each other part exactly when its entity has a value), then `_<suffix><extension>` |
| BidsCommon.BuildDirPath | rtCommon/bidsIncremental.py:423-437 | a path exists exactly when subject and datatype have values, and it is `sub-<subject>`, then `/ses-<session>` exactly when the session has a value, then `/<datatype>` |
| Metadata.MissingKeys | rtCommon/bidsIncremental.py:241 | the comprehension keeps the given fields that are not keys, in their order: an ordered sub-list of the fields containing every absent one and no present one |
| Metadata.MissingImageMetadata | rtCommon/bidsIncremental.py:239-241 | the result lists required fields only, each absent as a key, in the declared order |
| Metadata.MissingImageMetadataExact | rtCommon/bidsIncremental.py:41-42 | a field is reported missing exactly when it is required and is not a key; a key holding `None` counts as present |
| Metadata.IsCompleteImageMetadata | rtCommon/bidsIncremental.py:243-257 | complete exactly when subject, task, suffix, datatype, RepetitionTime and EchoTime are all keys |
| Metadata.CompleteIffEveryRequiredPresent | rtCommon/bidsIncremental.py:257 | complete exactly when every required field is a key, that is, when nothing is missing |
| Metadata.CreateImageMetadataDict | rtCommon/bidsIncremental.py:215-237 | the dictionary has exactly the six required keys with the given values, so it is always complete |
| Metadata.MissingKeysDependsOnKeys | rtCommon/bidsIncremental.py:241 | which fields are missing depends only on the key set, not on the values |
| Metadata.MissingDatasetFields | rtCommon/bidsIncremental.py:75-76 | a required description field is listed exactly when it is absent or `None`, in declared order |
| Metadata.NoDatasetFieldsMissingIffComplete | rtCommon/bidsIncremental.py:74-79 | the description passes exactly when every required field has a non-`None` value |
| Metadata.DefaultDatasetDescriptionIsComplete | rtCommon/bidsIncremental.py:87-88 | the default description passes the check |
| Metadata.LinSpace | rtCommon/bidsIncremental.py:184 | `np.linspace(0, stop, num)`: `num` points, the first 0 and the last `stop` |
| Metadata.MergedMetadata | rtCommon/bidsIncremental.py:174-188 | the merge has exactly the keys of the ProtocolName fields, `SliceTiming` and the caller's fields |
| Metadata.MergedMetadataFacts | rtCommon/bidsIncremental.py:174-188 | the merge has the keys of the ProtocolName fields, the placeholder and the caller's fields; the caller's values win; the placeholder fills a SliceTiming the caller did not give; ProtocolName fields fill the other gaps |
| Metadata.PreprocessMetadata | rtCommon/bidsIncremental.py:169-189 | pre-processing ends with the key set of the merge |
| Metadata.PostprocessMetadata | rtCommon/bidsIncremental.py:191-203 | fails exactly when `run` has a non-`None` value `int()` rejects, naming that value; otherwise adds TaskName and no other key |
| Metadata.PostprocessedValues | rtCommon/bidsIncremental.py:197-203 | TaskName equals task, a non-`None` run becomes `int(run)`, every other field is unchanged |
| Metadata.NormalizeMetadata | rtCommon/bidsIncremental.py:82-84 | normalised metadata is complete; the only errors are missing metadata and a bad run |
| Metadata.MissingMetadataIffIncomplete | rtCommon/bidsIncremental.py:205-213 | missing metadata is raised exactly when the merge lacks a required key, and the error names every missing field in declared order |
| Metadata.RequiredFieldsFromCaller | rtCommon/bidsIncremental.py:175-188 | under the stand-in ProtocolName parser, which yields only session, task and run, only task can come from the ProtocolName: every other required field is present after the merge exactly when the caller gave it |
| Metadata.NormalizedMetadataFacts | rtCommon/bidsIncremental.py:169-203 | after normalisation: the keys are the merge's plus TaskName; TaskName equals task; a non-`None` run is an int; the caller's other fields are kept; the time fields are the caller's in seconds |
| Metadata.RunCoercionFailure | rtCommon/bidsIncremental.py:83-84 | the run error is raised exactly when the merge is complete and holds a non-`None` run that `int()` rejects |
| Metadata.GetField | rtCommon/bidsIncremental.py:266-292 | fails exactly on a strict get of a non-entity; otherwise the value, or `None` for an absent key |
| Metadata.SetField | rtCommon/bidsIncremental.py:294-311 | fails on a strict set of a non-entity (checked first) or an empty name; otherwise adds or replaces exactly that key |
| Metadata.RemoveField | rtCommon/bidsIncremental.py:313-329 | fails on a required field, strict or not (checked first), then on a strict non-entity; otherwise drops exactly that key |
| Metadata.GetAfterSet | rtCommon/bidsIncremental.py:294-311 | a get after a successful set returns the value set |
| Metadata.RemoveAbsentIsNoOp | rtCommon/bidsIncremental.py:329 | removing an absent key leaves the metadata as it was |
| Metadata.FieldUpdatesKeepComplete | rtCommon/bidsIncremental.py:294-329 | a successful set or remove keeps every required field |
| Naming.NonNullEntities | rtCommon/bidsIncremental.py:388-389 | exactly the entity keys whose value is not `None`, with their values |
| Naming.FileNameEntities | rtCommon/bidsIncremental.py:388-395 | those entities plus extension and suffix; the suffix is `events` for the events file and the metadata's suffix otherwise |
| Naming.MakeBidsFileName | rtCommon/bidsIncremental.py:371-397 | a name exists exactly when subject, task and (except for events) suffix have values; it starts `sub-<subject>` and ends `_<suffix><extension>` |
| Naming.MakeBidsFileNameSegments | rtCommon/bidsIncremental.py:371-397 | the whole file name in terms of the metadata: `sub-<subject>`, the session part exactly when the session has a value, `_task-<task>`, the acquisition, contrast agent, direction, reconstruction, run and echo parts each exactly when it has a value, then `_events` or `_<suffix>` and the extension |
| Naming.DataDirPath | rtCommon/bidsIncremental.py:423-437 | a path exists exactly when subject and datatype have values, and it is `sub-<subject>[/ses-<session>]/<datatype>` with the session part present exactly when the session has a value |
| Naming.DataDirPathDeterminedByFields | rtCommon/bidsIncremental.py:423-437 | the data directory depends only on the subject, session and datatype values |
| Naming.SetOtherFieldKeepsDataDirPath | rtCommon/bidsIncremental.py:309 | setting any field other than subject, session and datatype leaves the data directory unchanged |
| Naming.FilePath | rtCommon/bidsIncremental.py:415-421 | a file path exists exactly when the directory and the name do, and joins them with `/`; otherwise `None`, standing for the `TypeError` that `os.path.join` raises on a `None` part |
| Naming.SidecarMetadata | rtCommon/bidsIncremental.py:459-460 | the sidecar holds exactly the non-entity keys, with their values |
| Naming.EntitiesAndSidecarPartition | rtCommon/bidsIncremental.py:459-460 | entity keys and sidecar keys are disjoint and together give back the whole metadata |
| Naming.FileNameDeterminedByEntities | rtCommon/bidsIncremental.py:388-397 | the file name depends only on the non-`None` entities, the kind and the suffix |
| Naming.SetNonEntityKeepsFileName | rtCommon/bidsIncremental.py:309 | setting a non-entity field other than the suffix leaves the file name unchanged |
| Incremental.NormalizeImage | rtCommon/bidsIncremental.py:93-112 | a normalised image has four axes and the input's voxels and class; the only errors are too few axes, a repetition time numpy cannot store as a float, and a final rank other than 4 |
| Incremental.NormalizeImageShapes | rtCommon/bidsIncremental.py:98-112 | too few axes exactly when the input had fewer than three; three axes after squeezing gain a trailing unit axis, keep `pixdim[0..3]`, get `pixdim[4]` = RepetitionTime as numpy stores it (NaN for `None`) and 1.0 in `pixdim[5..7]`, refused exactly when numpy cannot store it; four are kept, with the header untouched when the input had four; more than four are refused |
| Incremental.FourDimensionalShapeKept | rtCommon/bidsIncremental.py:94-112 | a 4-D input comes out with its own shape, even when its last axis of length 1 is squeezed away and added back |
| Incremental.Construct | rtCommon/bidsIncremental.py:65-121 | a constructed state has complete metadata, a 4-D image and a complete dataset description |
| Incremental.Initialized | rtCommon/bidsIncremental.py:81-121 | past the input checks, a success stores complete metadata, a 4-D image and the given description |
| Incremental.InitializedErrors | rtCommon/bidsIncremental.py:81-112 | the later steps never raise the image-type or dataset errors |
| Incremental.InitializedFails | rtCommon/bidsIncremental.py:82-112 | a failing metadata or image step is the constructor's error |
| Incremental.InitializedSucceeds | rtCommon/bidsIncremental.py:81-121 | when both steps succeed, the state is the normalised metadata, the description, the normalised image, and the fixed readme, event columns and version |
| Incremental.ConstructInputErrors | rtCommon/bidsIncremental.py:67-79 | the type error exactly for a missing or non-NIfTI image; the dataset error exactly for a supplied description with a required field absent or `None`, naming those fields |
| Incremental.ConstructMetadataErrors | rtCommon/bidsIncremental.py:82-83 | past the input checks, missing metadata exactly when the merge lacks a required key, naming every missing field |
| Incremental.ConstructedState | rtCommon/bidsIncremental.py:84-112 | TaskName equals task; a non-`None` run is an int; the caller's other fields are as given; the description is the supplied one or the default; the image is 4-D with the input's voxels |
| Incremental.Compare | rtCommon/bidsIncremental.py:129-167 | equal exactly when headers (with the NIfTI class) agree, image metadata and dataset metadata are equal as Python dicts, and voxels agree; the header is compared first, so a header or class difference is reported as such, and a metadata difference only when the headers agree |
| Incremental.CompareIsEquivalence | rtCommon/bidsIncremental.py:129-167 | equality is reflexive, symmetric and transitive, and ignores readme, events and version |
| Incremental.CompareNumbersAcrossTypes | rtCommon/bidsIncremental.py:145-146 | metadata holding the same number as an int in one incremental and as a float or bool in the other does not make them differ |
| Incremental.BidsIncremental.Create | rtCommon/bidsIncremental.py:65-121 | fails exactly when `Construct` does, with its error; otherwise a fresh object whose state is what `Construct` gives, satisfying `Valid()` |
| Incremental.BidsIncremental.Initialize | rtCommon/bidsIncremental.py:81-121 | the in-place steps end with the state, or the error, of `Initialized` |
| Incremental.BidsIncremental.InitializeRest | rtCommon/bidsIncremental.py:86-121 | stores the description, then the normalised image or its error, then readme, event columns and version |
| Incremental.BidsIncremental.InitializeMetadata | rtCommon/bidsIncremental.py:82-84 | the three metadata steps leave the `NormalizeMetadata` result, or fail with its error |
| Incremental.BidsIncremental.InitializeImage | rtCommon/bidsIncremental.py:92-112 | the in-place squeeze, expansion and `pixdim[4]` write leave the `NormalizeImage` result, or fail with its error |
| Incremental.BidsIncremental.PreprocessAndSetMetadata | rtCommon/bidsIncremental.py:169-189 | the step-by-step updates leave the pre-processed metadata |
| Incremental.BidsIncremental.AssertHaveRequiredMetadata | rtCommon/bidsIncremental.py:205-213 | fails exactly when the metadata is incomplete, naming every missing field |
| Incremental.BidsIncremental.PostprocessMetadata | rtCommon/bidsIncremental.py:191-203 | the in-place run coercion and TaskName assignment give `Metadata.PostprocessMetadata`'s result; on failure the metadata is unchanged |
| Incremental.BidsIncremental.SetMetadataField | rtCommon/bidsIncremental.py:294-311 | the new metadata, or the error, is that of `SetField`; on failure nothing changes; `Valid()` is kept |
| Incremental.BidsIncremental.RemoveMetadataField | rtCommon/bidsIncremental.py:313-329 | the new metadata, or the error, is that of `RemoveField`; on failure nothing changes; `Valid()` is kept |

## Left out

- `writeToArchive`'s disk writes (directories, NIfTI file, JSON sidecar, events TSV, `dataset_description.json`, README) are I/O. Only its sidecar key filter is modelled, as `Naming.SidecarMetadata`.
- Logging (`logger.debug`) and `__str__` have no effect on state.
- Floats are modelled as exact reals. `np.linspace` and the millisecond rescale are therefore exact. NaN exists only as a `pixdim` element (what numpy stores for `None`). `__eq__`'s NaN-aware header comparison becomes plain equality of class, shape and `pixdim`, and its voxel comparison plain equality of the flattened voxels.
- The image is reduced to its class, shape, `pixdim` and flattened voxels. Affines, the other header fields, `xyzt_units` and the numpy array layout are not modelled. nibabel's `squeeze_image`, its header update for a new data shape (`set_data_shape`) and `np.expand_dims` are written from their documented behaviour, since their code is not part of this model.
- The pandas events table is modelled only by its column names (`Incremental.EventColumns`).
- `rtCommon/bidsCommon.py` is not part of this model. `BidsCommon` holds stand-ins, and the proofs rely only on the facts its lemmas state.
  - The entity table has the 20 BIDS 1.4.1 entity names; only the names are kept, not their format or description.
  - The ProtocolName parser reads only `ses-`, `task-` and `run-` parts of a `_`-separated name.
  - The time-unit fix takes values above 100 as milliseconds.
  - `build_path` is reduced to the file-name template of `rtCommon/bidsIncremental.py:377-379` and the directory template `sub-<label>[/ses-<label>]/<datatype>`.
  - The required description fields and the default description are given as constants.
- PyValues.Label: `str()` of a float with a fractional part and of a list is the empty string, not Python's decimal text. An integral float of 1e16 or more gives its digits and `.0` here, where Python writes exponent text such as `1e+16`.
- PyValues.PyInt / PyValues.ParseInt: `int()` on a string with surrounding whitespace, `_` digit separators or non-ASCII decimal digits is not modelled, and fails here.
- PyValues.AsFloat: a numeric string stored into the float `pixdim` array is refused here, though numpy would convert it.
- `DEFAULT_DATASET_DESC` is stored by reference in the source and shared between instances. Maps are values here, so that sharing cannot be expressed.
- Metadata values are immutable values here, so value aliasing is not modelled. The source shares them by reference:
  - `update` (`rtCommon/bidsIncremental.py:188`) stores the caller's own value objects;
  - `getMetadataField` (line 292) returns the stored object itself;
  - `imageMetadata` (line 343) returns a shallow copy.

  So a list value, such as the `SliceTiming` list, stays shared with callers. Changing it in place (through the dict `imageMetadata` returns, or through the caller's original list) changes the incremental's metadata, its sidecar and the result of `__eq__`. Here `ImageMetadata()` is a map of values, and after construction only the field operations change the state.
- The properties `suffix`, `datatype`, `datasetName`, `imageData`, `imageHeader` and `imageDimensions`, and the three `*FileName` properties, only read a field or call `makeBidsFileName` with a fixed kind. They are not modelled separately.
- The class view functions `GetMetadataField`, `ImageMetadata`, `Entities`, `MakeBidsFileName`, `DataDirPath`, `FilePath`, `SidecarMetadata` and `Equals` delegate to the module functions above and carry no contract of their own.
- The archive append and merge engine lives outside `rtCommon/bidsIncremental.py` and is not part of this model.
