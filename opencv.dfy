/** The part of OpenCV's `Mat` the filter depends on, and OpenCV's error type. */
module OpenCv {

  /** An `opencv::Error`, known here only by its displayed text. */
  datatype CvErr = CvErr(shown: string)

  /** The value held by a `Mat`: `dims()`, `channels()`, `mat_size()` (one extent per
      dimension) and the element data. */
  datatype Frame = Frame(dims: nat, channels: nat, size: seq<nat>, data: seq<int>)

  /** True when the frame is a two-dimensional image with three interleaved channels. */
  predicate IsThreeChannelImage(f: Frame)
  {
    f.dims == 2 && f.channels == 3
  }

  /** A `Mat` object: a buffer that a `&mut Mat` borrower may overwrite in place. */
  class Mat {
    var frame: Frame

    constructor (frame: Frame)
      ensures this.frame == frame
    {
      this.frame := frame;
    }

    /** `Mat::clone`: a deep copy in a new buffer. */
    method Clone() returns (m: Mat)
      ensures fresh(m) && m.frame == frame
    {
      m := new Mat(frame);
    }
  }
}
