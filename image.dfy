/** The part of a NIfTI image the incremental looks at: its class, the data
    shape and `pixdim` vector of its header, and its voxels (flattened; reshaping
    and adding unit axes do not reorder them). */
module NiftiImage {
  import opened PyValues

  datatype ImageFormat = Nifti1 | Nifti2 | OtherFormat

  /** A NIfTI header always holds eight pixel dimensions, each a float that
      may be NaN. */
  type Pixdim = s: seq<Float> | |s| == 8
    witness [Finite(0.0), Finite(1.0), Finite(1.0), Finite(1.0), Finite(1.0), Finite(1.0), Finite(1.0), Finite(1.0)]

  datatype Header = Header(shape: seq<nat>, pixdim: Pixdim)

  datatype Image = Image(format: ImageFormat, header: Header, data: seq<real>)

  function Rank(img: Image): nat { |img.header.shape| }

  /** nibabel's `squeeze_image` on a shape: length-1 axes at the end of the
      shape are dropped, but never below three axes, and a shape of fewer than
      four axes is returned as it is. */
  function SqueezeShape(shape: seq<nat>): (r: seq<nat>)
    ensures |shape| < 4 ==> r == shape
    ensures |shape| >= 4 ==> 3 <= |r| <= |shape|
    ensures |r| <= |shape| && r == shape[..|r|]
    ensures forall i :: |r| <= i < |shape| ==> shape[i] == 1
    ensures |r| >= 4 ==> r[|r| - 1] != 1
  {
    if |shape| >= 4 && shape[|shape| - 1] == 1 then SqueezeShape(shape[..|shape| - 1])
    else shape
  }

  /** nibabel's header update when an image is built on data of another
      shape (`set_data_shape`): the header takes the new shape, and every
      `pixdim` entry past the new rank is reset to 1.0. */
  function SetDataShape(h: Header, shape: seq<nat>): (r: Header)
    ensures r.shape == shape
    ensures forall i :: 0 <= i < 8 ==> r.pixdim[i] == if i <= |shape| then h.pixdim[i] else Finite(1.0)
  {
    var kept := if |shape| >= 7 then 8 else |shape| + 1;
    Header(shape, h.pixdim[..kept] + seq(8 - kept, _ => Finite(1.0)))
  }

  /** `squeeze_image`: the image itself (a copy) when nothing is squeezed,
      otherwise a new image of the same class on the squeezed data, whose
      header is updated for the new shape. */
  function SqueezeImage(img: Image): (r: Image)
    ensures r.header.shape == SqueezeShape(img.header.shape)
    ensures r.header.shape == img.header.shape ==> r == img
    ensures forall i :: 0 <= i < 8 ==>
      r.header.pixdim[i] == if i <= Rank(r) || Rank(r) == Rank(img) then img.header.pixdim[i] else Finite(1.0)
    ensures r.data == img.data && r.format == img.format
  {
    var shape := SqueezeShape(img.header.shape);
    if shape == img.header.shape then img
    else img.(header := SetDataShape(img.header, shape))
  }

  /** `np.expand_dims(data, -1)` wrapped in a new image of the same class and
      header: one trailing axis of length 1, and the header updated for it. */
  function ExpandDims(img: Image): (r: Image)
    ensures r.header.shape == img.header.shape + [1] && Rank(r) == Rank(img) + 1
    ensures forall i :: 0 <= i < 8 ==> r.header.pixdim[i] == if i <= Rank(r) then img.header.pixdim[i] else Finite(1.0)
    ensures r.data == img.data && r.format == img.format
  {
    img.(header := SetDataShape(img.header, img.header.shape + [1]))
  }
}
