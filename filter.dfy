/** The error type every filter returns (src/filter.rs). This model is the build with
    the `rvm` feature enabled, in which the ONNX Runtime variant exists. */
module Filters {
  import opened OpenCv
  import opened OnnxRuntime

  datatype FilterError =
    | Other(description: string)
    | CvError(cvErr: CvErr)
    | OnnxError(ortErr: OrtErr)

  /** `From<opencv::Error>`: what `?` applies to an OpenCV failure. */
  function FromCv(e: CvErr): FilterError
  {
    CvError(e)
  }

  /** `From<onnxruntime::OrtError>`: what `?` applies to an ONNX Runtime failure. */
  function FromOrt(e: OrtErr): FilterError
  {
    OnnxError(e)
  }

  /** The two conversions keep the library error and never meet. */
  lemma Conversions(c: CvErr, c': CvErr, o: OrtErr, o': OrtErr)
    ensures FromCv(c).CvError? && FromCv(c).cvErr == c
    ensures FromOrt(o).OnnxError? && FromOrt(o).ortErr == o
    ensures FromCv(c) != FromOrt(o)
    ensures FromCv(c) == FromCv(c') ==> c == c'
    ensures FromOrt(o) == FromOrt(o') ==> o == o'
  {
  }

  /** The `Display` text of an error. */
  function Display(e: FilterError): (s: string)
    ensures |s| > 14 && s[..13] == "Filter failed"
    // the character after the common prefix tells the variant
    ensures (s[13] == ':') == e.Other?
    ensures (s[13] == ';') == e.CvError?
    ensures (s[13] == ',') == e.OnnxError?
    // and the rest is the description or the library's own text
    ensures e.Other? ==> s == "Filter failed: " + e.description
    ensures e.CvError? ==> |e.cvErr.shown| < |s| && s[|s| - |e.cvErr.shown|..] == e.cvErr.shown
    ensures e.OnnxError? ==> |e.ortErr.shown| < |s| && s[|s| - |e.ortErr.shown|..] == e.ortErr.shown
  {
    match e
    case Other(d) => "Filter failed: " + d
    case CvError(c) => "Filter failed; OpenCV error: " + c.shown
    case OnnxError(o) => "Filter failed, ONNXRuntime error: " + o.shown
  }
}
