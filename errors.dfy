/** The exceptions the incremental raises, one constructor per raise site. */
module Errors {
  import opened PyValues

  datatype Error =
    /** `TypeError`: the image is missing or not a NIfTI-1/NIfTI-2 image. */
    | NotNiftiImage
    /** `MissingMetadataError`: the dataset description lacks these fields. */
    | DatasetMetadataMissing(datasetFields: seq<string>)
    /** `MissingMetadataError`: the image metadata lacks these fields. */
    | ImageMetadataMissing(imageFields: seq<string>)
    /** `ValueError` or `TypeError` from `int()` on the run field. */
    | RunNotInteger(run: Value)
    /** `ValueError`: fewer than three axes after squeezing. */
    | TooFewDimensions(rank: nat)
    /** The RepetitionTime is a value numpy cannot store as a float in
        `pixdim[4]` (a string or a list). */
    | RepetitionTimeNotNumeric(repetitionTime: Value)
    /** `AssertionError`: the image is not 4-D after normalisation. */
    | NotFourDimensional(finalRank: nat)
    /** `ValueError`: a strict get/set/remove of a name that is not a BIDS entity. */
    | NotBidsEntity(name: string)
    /** `ValueError`: an attempt to remove a required field. */
    | RequiredFieldRemoval(field: string)
    /** `ValueError`: an empty field name given to set. */
    | EmptyFieldName
}
