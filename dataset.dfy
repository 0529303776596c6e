/** `RoadDataset` of scripts/preprocessing.py: images and optional masks
    already read into memory, an optional transform and an optional
    preprocessing step, and the sample pipeline of `__getitem__`. */
module Dataset {
  import opened Common
  import opened NdArrays

  /** An (image, mask) pair, as passed to and returned by the albumentations
      callables (`transform(image=..., mask=...)` returns both again). */
  datatype Sample = Sample(image: Array, mask: Array)

  /** A transform or preprocessing callable; the model sees only its result. */
  type Step = Sample -> Sample

  /** `if step: sample = step(sample)`. */
  function Apply(step: Option<Step>, s: Sample): Sample
  {
    match step
    case None => s
    case Some(f) => f(s)
  }

  /** `if self.masks`: a list of masks is used only when present and non-empty. */
  predicate HasMasks(masks: Option<seq<Array>>)
  {
    masks.Some? && |masks.value| > 0
  }

  /** The mask before any step: the stored mask binarised at 0.5, or, with
      no masks, zeros of the image's whole shape (channel axis included). */
  function RawMask(image: Array, masks: Option<seq<Array>>, i: int): Result<Array>
  {
    if HasMasks(masks) then
      match PyIndex(|masks.value|, i)
      case None => Err(IndexError)
      case Some(j) => Ok(Binarize(masks.value[j]))
    else Ok(Zeros(image.shape))
  }

  /** HWC -> CHW for the image and a leading axis of length 1 for the mask. */
  function ToTorchLayout(s: Sample): Result<Sample>
  {
    if |s.image.shape| == 0 then Err(AxisError)
    else Ok(Sample(MoveLastAxisFirst(s.image), ExpandDims0(s.mask)))
  }

  /** The sample of `__getitem__(i)` after the transform and the
      preprocessing step, still in the (H, W, C) layout. */
  function Processed(images: seq<Array>, masks: Option<seq<Array>>,
                     transform: Option<Step>, preprocess: Option<Step>, i: int): Result<Sample>
  {
    match PyIndex(|images|, i)
    case None => Err(IndexError)
    case Some(k) =>
      match RawMask(images[k], masks, i)
      case Err(e) => Err(e)
      case Ok(mask) => Ok(Apply(preprocess, Apply(transform, Sample(images[k], mask))))
  }

  /** `__getitem__(i)` of a dataset with the given fields: it fails only with
      IndexError or AxisError, and a returned mask has a leading axis of length 1. */
  function GetSample(images: seq<Array>, masks: Option<seq<Array>>,
                     transform: Option<Step>, preprocess: Option<Step>, i: int): (r: Result<Sample>)
    ensures r.Err? ==> r.error == IndexError || r.error == AxisError
    ensures r.Ok? ==> |r.value.mask.shape| > 0 && r.value.mask.shape[0] == 1
  {
    match Processed(images, masks, transform, preprocess, i)
    case Err(e) => Err(e)
    case Ok(s) => ToTorchLayout(s)
  }

  /** Whatever the steps do: the returned image is the processed image moved
      to channel-first layout, and the returned mask is the processed mask
      under a leading axis of length 1. */
  lemma ProcessedSampleIsLaidOut(images: seq<Array>, masks: Option<seq<Array>>,
                                 transform: Option<Step>, preprocess: Option<Step>, i: int,
                                 c: nat, h: nat, w: nat)
    requires Processed(images, masks, transform, preprocess, i).Ok?
    requires var img := Processed(images, masks, transform, preprocess, i).value.image;
             |img.shape| == 3 && h < img.shape[0] && w < img.shape[1] && c < img.shape[2]
    ensures var s := Processed(images, masks, transform, preprocess, i).value;
            var r := GetSample(images, masks, transform, preprocess, i);
            r.Ok? &&
            r.value.image.shape == [s.image.shape[2], s.image.shape[0], s.image.shape[1]] &&
            At3(r.value.image, c, h, w) == At3(s.image, h, w, c) &&
            r.value.mask == ExpandDims0(s.mask)
  {
    ChannelFirstAt(Processed(images, masks, transform, preprocess, i).value.image, c, h, w);
  }

  /** The only failures: an index outside the images (or outside the stored
      masks, when there are any) and an image of rank 0 after the steps. */
  lemma GetSampleErrors(images: seq<Array>, masks: Option<seq<Array>>,
                        transform: Option<Step>, preprocess: Option<Step>, i: int)
    ensures var r := GetSample(images, masks, transform, preprocess, i);
            (r == Err(IndexError) <==>
               PyIndex(|images|, i).None? || (HasMasks(masks) && PyIndex(|masks.value|, i).None?)) &&
            (r.Err? ==> r.error == IndexError || r.error == AxisError)
  {
  }

  /** With masks stored and no steps: cell k of the returned mask is 1 when
      the stored value is at least 0.5 and 0 otherwise, under one extra
      leading axis of length 1. */
  lemma StoredMaskIsBinarised(images: seq<Array>, masks: Option<seq<Array>>, i: int)
    requires HasMasks(masks)
    requires 0 <= i < |images| && i < |masks.value|
    requires |images[i].shape| > 0
    ensures var r := GetSample(images, masks, None, None, i);
            r.Ok? &&
            r.value.mask.shape == [1] + masks.value[i].shape &&
            |r.value.mask.data| == |masks.value[i].data| &&
            forall k :: 0 <= k < |r.value.mask.data| ==>
              r.value.mask.data[k] == (if masks.value[i].data[k] >= 0.5 then 1.0 else 0.0)
  {
    var b := Binarize(masks.value[i]);
    assert GetSample(images, masks, None, None, i) == Ok(Sample(MoveLastAxisFirst(images[i]), ExpandDims0(b)));
  }

  /** Without masks and with no steps: the returned mask is all zeros, of the
      image's whole shape under one extra leading axis. */
  lemma DummyMaskIsZero(images: seq<Array>, masks: Option<seq<Array>>, i: int)
    requires !HasMasks(masks)
    requires 0 <= i < |images| && |images[i].shape| > 0
    ensures var r := GetSample(images, masks, None, None, i);
            r.Ok? &&
            r.value.mask.shape == [1] + images[i].shape &&
            forall k :: 0 <= k < |r.value.mask.data| ==> r.value.mask.data[k] == 0.0
  {
    var z := Zeros(images[i].shape);
    assert GetSample(images, masks, None, None, i) == Ok(Sample(MoveLastAxisFirst(images[i]), ExpandDims0(z)));
  }

  /** With no steps, an (H, W, C) image comes back as (C, H, W) with
      out[c][h][w] == in[h][w][c]. */
  lemma ImageIsChannelFirst(images: seq<Array>, masks: Option<seq<Array>>, i: int, c: nat, h: nat, w: nat)
    requires 0 <= i < |images| && (HasMasks(masks) ==> i < |masks.value|)
    requires |images[i].shape| == 3
    requires h < images[i].shape[0] && w < images[i].shape[1] && c < images[i].shape[2]
    ensures var r := GetSample(images, masks, None, None, i);
            r.Ok? &&
            r.value.image.shape == [images[i].shape[2], images[i].shape[0], images[i].shape[1]] &&
            At3(r.value.image, c, h, w) == At3(images[i], h, w, c)
  {
    ChannelFirstAt(images[i], c, h, w);
  }

  /** The transform runs first and the preprocessing step on its output:
      both together act as their composition used as the transform alone. */
  lemma TransformBeforePreprocess(images: seq<Array>, masks: Option<seq<Array>>, t: Step, p: Step, i: int)
    ensures GetSample(images, masks, Some(t), Some(p), i) ==
            GetSample(images, masks, Some((s: Sample) => p(t(s))), None, i)
  {
  }

  /** Each step is applied only when present: a preprocessing step alone acts
      like that step used as the transform. */
  lemma AbsentTransformSkipped(images: seq<Array>, masks: Option<seq<Array>>, p: Step, i: int)
    ensures GetSample(images, masks, None, Some(p), i) == GetSample(images, masks, Some(p), None, i)
  {
  }

  class RoadDataset {
    var images: seq<Array>
    var masks: Option<seq<Array>>
    var transform: Option<Step>
    var preprocess: Option<Step>

    /** `__init__`: every image path is read with `imread`, and the mask paths
        too when they are given and non-empty; otherwise there are no masks. */
    constructor (imagePaths: seq<string>, maskPaths: Option<seq<string>>,
                 transform: Option<Step>, preprocess: Option<Step>, imread: string -> Array)
      ensures |images| == |imagePaths| && Len() == |imagePaths|
      ensures forall k :: 0 <= k < |imagePaths| ==> images[k] == imread(imagePaths[k])
      ensures masks.Some? <==> maskPaths.Some? && |maskPaths.value| > 0
      ensures masks.Some? ==> |masks.value| == |maskPaths.value|
      ensures masks.Some? ==> forall k :: 0 <= k < |maskPaths.value| ==> masks.value[k] == imread(maskPaths.value[k])
      ensures this.transform == transform && this.preprocess == preprocess
    {
      images := seq(|imagePaths|, k requires 0 <= k < |imagePaths| => imread(imagePaths[k]));
      if maskPaths.Some? && |maskPaths.value| > 0 {
        var paths := maskPaths.value;
        masks := Some(seq(|paths|, k requires 0 <= k < |paths| => imread(paths[k])));
      } else {
        masks := None;
      }
      this.transform := transform;
      this.preprocess := preprocess;
    }

    /** `copy.deepcopy(other)`: a new object with equal contents. */
    constructor Copy(other: RoadDataset)
      ensures images == other.images && masks == other.masks
      ensures transform == other.transform && preprocess == other.preprocess
    {
      images := other.images;
      masks := other.masks;
      transform := other.transform;
      preprocess := other.preprocess;
    }

    /** `__getitem__(i)`: IndexError exactly when i is outside the images under
        Python indexing, or outside the stored masks when there are any. */
    function GetItem(i: int): (r: Result<Sample>)
      reads this
      ensures r == Err(IndexError) <==>
                PyIndex(Len(), i).None? || (HasMasks(masks) && PyIndex(|masks.value|, i).None?)
    {
      GetSampleErrors(images, masks, transform, preprocess, i);
      GetSample(images, masks, transform, preprocess, i)
    }

    /** `set_tf(t)`: a fresh copy whose transform is t and whose other fields
        equal this dataset's; this dataset is left as it was. */
    method SetTf(t: Option<Step>) returns (c: RoadDataset)
      ensures fresh(c) && unchanged(this)
      ensures c.transform == t
      ensures c.images == images && c.masks == masks && c.preprocess == preprocess
    {
      c := new RoadDataset.Copy(this);
      c.transform := t;
    }

    /** `__len__`: every index from -len to len - 1 addresses an image, and
        any other index raises IndexError. */
    function Len(): (n: nat)
      reads this
      ensures forall i :: -(n as int) <= i < n <==> PyIndex(|images|, i).Some?
      ensures forall i :: (i < -(n as int) || n <= i) ==>
                GetSample(images, masks, transform, preprocess, i) == Err(IndexError)
    {
      |images|
    }
  }
}
