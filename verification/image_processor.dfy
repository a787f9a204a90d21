/**
 * The cache of the image pipeline that prepares a camera frame for a
 * detector: a square crop-or-pad, a nearest-neighbour resize and a
 * normalisation. The pipeline is built once and rebuilt only when the
 * frame or target size changes.
 */
module ImageProcessing {
  import opened JavaArith

  /** One stage of the pipeline. */
  datatype Op =
    | CropOrPad(height: int, width: int)
    | ResizeNearest(height: int, width: int)
    | Normalize(mean: real, std: real)

  /** The stages for frames of `currentWidth` x `currentHeight` scaled to the target size. */
  function Pipeline(currentWidth: int, currentHeight: int, targetWidth: int, targetHeight: int,
                    mean: real, std: real): (ops: seq<Op>)
    ensures |ops| == 3 && ops[0].CropOrPad? && ops[1].ResizeNearest? && ops[2].Normalize?
    ensures ops[0].height == ops[0].width
    ensures ops[0].width >= currentWidth && ops[0].width >= currentHeight
    ensures ops[0].width == currentWidth || ops[0].width == currentHeight
    ensures ops[1] == ResizeNearest(targetHeight, targetWidth) && ops[2] == Normalize(mean, std)
  {
    var side := Max(currentWidth, currentHeight);
    [CropOrPad(side, side), ResizeNearest(targetHeight, targetWidth), Normalize(mean, std)]
  }

  /** A built pipeline. */
  class ImageProcessor {
    const ops: seq<Op>

    constructor (ops: seq<Op>)
      ensures this.ops == ops
    {
      this.ops := ops;
    }
  }

  class ImageProcessorUtil {
    const mean: real
    const std: real
    var currentWidth: int
    var currentHeight: int
    var targetWidth: int
    var targetHeight: int
    var imageProcessor: ImageProcessor?

    constructor (mean: real, std: real)
      ensures this.mean == mean && this.std == std && imageProcessor == null
    {
      this.mean, this.std := mean, std;
      currentWidth, currentHeight, targetWidth, targetHeight := 0, 0, 0, 0;
      imageProcessor := null;
    }

    /** Whether the cached pipeline was built for these four sizes. */
    predicate Matches(cw: int, ch: int, tw: int, th: int)
      reads this
    {
      currentWidth == cw && currentHeight == ch && targetWidth == tw && targetHeight == th
    }

    /**
     * The pipeline for these sizes: the cached one when it was built for
     * the same four sizes, otherwise a new one, which is then cached.
     */
    method GetImageProcessor(cw: int, ch: int, tw: int, th: int) returns (p: ImageProcessor)
      modifies this`currentWidth, this`currentHeight, this`targetWidth, this`targetHeight, this`imageProcessor
      ensures imageProcessor == p && Matches(cw, ch, tw, th)
      ensures old(imageProcessor) != null && old(Matches(cw, ch, tw, th)) ==> p == old(imageProcessor)
      ensures !(old(imageProcessor) != null && old(Matches(cw, ch, tw, th))) ==>
        fresh(p) && p.ops == Pipeline(cw, ch, tw, th, mean, std)
      decreases if imageProcessor == null then 0 else 1
    {
      if imageProcessor == null {
        currentWidth, currentHeight, targetWidth, targetHeight := cw, ch, tw, th;
        var side := Max(cw, ch);
        imageProcessor := new ImageProcessor([CropOrPad(side, side), ResizeNearest(th, tw), Normalize(mean, std)]);
      } else if currentWidth != cw || currentHeight != ch || targetWidth != tw || targetHeight != th {
        imageProcessor := null;
        imageProcessor := GetImageProcessor(cw, ch, tw, th);
      }
      p := imageProcessor;
    }
  }

  /** Asking twice for the same sizes gives the identical pipeline. */
  method CachedTwice(u: ImageProcessorUtil, cw: int, ch: int, tw: int, th: int) returns (p: ImageProcessor, q: ImageProcessor)
    modifies u
    ensures p == q
  {
    p := u.GetImageProcessor(cw, ch, tw, th);
    q := u.GetImageProcessor(cw, ch, tw, th);
  }
}
