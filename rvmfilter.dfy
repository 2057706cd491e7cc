/** The recurrent background-matting filter (src/rvmfilter.rs). Every call into OpenCV,
    `ndarray` and ONNX Runtime is an abstract step that either yields a value or fails;
    what is modelled is the control flow around them: which checks run in which order,
    what the session receives, and which state and buffer values survive each exit. */
module Rvm {
  import opened Wrappers
  import opened Decimal
  import opened OpenCv
  import opened OnnxRuntime
  import opened Filters

  /** The ratio the network works at, relative to the input resolution. */
  const DOWNSAMPLE_RATIO: real := 0.25

  /** Outcomes of the library calls one `filter_inplace` makes, as functions of their
      arguments. */
  datatype Calls = Calls(
    // `blob_from_image` (scale 1/255, swap R and B, f32), the four `mat_size().get(i)`
    // and the copy of the blob into an owned tensor
    blobTensor: Frame -> Result<Tensor, CvErr>,
    // whether `as_slice` of an output tensor succeeds (standard contiguous layout)
    asSlice: Tensor -> bool,
    // `Mat::from_slice` followed by `reshape_nd` to the tensor's shape
    tensorToMat: Tensor -> Result<Frame, CvErr>,
    // `images_from_blob`: the images held by a blob
    imagesFromBlob: Frame -> Result<seq<Frame>, CvErr>,
    // the OpenCV calls of `mix_result` (arguments bg, pha, fgr): the blended frame
    // that `convert_to` writes into the destination
    mixResult: (Frame, Frame, Frame) -> Result<Frame, CvErr>,
    // `highgui::imshow` of the composited frame, and `highgui::wait_key(15)`
    imshow: Frame -> Option<CvErr>,
    waitKey: Option<CvErr>,
    // the `Debug` rendering of a `MatSize`
    showSize: seq<nat> -> string)

  /** The four recurrent tensors `r1o..r4o`. */
  datatype Recurrent = Recurrent(r1: Tensor, r2: Tensor, r3: Tensor, r4: Tensor)

  /** What `mem::take` leaves in all four fields. */
  function Taken(): Recurrent
  {
    Recurrent(Default(), Default(), Default(), Default())
  }

  /** The recurrent value set at construction: a 1x1x1x1 all-zero tensor. */
  function RecurrentInit(): Tensor
  {
    Filled([1, 1, 1, 1], 0.0)
  }

  /** The one-element tensor holding the downsample ratio. */
  function RatioTensor(): Tensor
  {
    Filled([1], DOWNSAMPLE_RATIO)
  }

  lemma InitialState()
    ensures RecurrentInit().shape == [1, 1, 1, 1] && RecurrentInit().elems == [0.0]
    ensures RatioTensor().shape == [1] && RatioTensor().elems == [0.25]
    // the value a taken field holds is not the initial zero tensor
    ensures RecurrentInit() != Default() && WellFormed(Default())
  {
    assert |RecurrentInit().elems| == 1;
    assert |RatioTensor().elems| == 1;
  }

  // ---------------------------------------------------------------------------
  // Error messages
  // ---------------------------------------------------------------------------

  function SourceShapeMessage(src: Frame, show: seq<nat> -> string): string
  {
    "Expected a WHC source image (where C=3), got " + show(src.size)
      + " with " + NatToString(src.channels) + " channels"
  }

  function BackgroundShapeMessage(bg: Frame, show: seq<nat> -> string): string
  {
    "Expected a WHC background image (where C=3), got " + show(bg.size)
      + " with " + NatToString(bg.channels) + " channels"
  }

  function SizeMismatchMessage(src: Frame, bg: Frame, show: seq<nat> -> string): string
  {
    "Camera image has size " + show(src.size) + " but background image has size "
      + show(bg.size) + "."
  }

  const ARITY_PREFIX := "Expected six output tensors, got "

  function ArityMessage(n: nat): string
  {
    ARITY_PREFIX + NatToString(n)
  }

  /** The arity error names the number of outputs the engine returned. */
  lemma ArityMessageNamesCount(n: nat, m: nat)
    requires ArityMessage(n) == ArityMessage(m)
    ensures n == m
  {
    assert ArityMessage(n)[|ARITY_PREFIX|..] == NatToString(n);
    assert ArityMessage(m)[|ARITY_PREFIX|..] == NatToString(m);
    NatToStringInjective(n, m);
  }

  function BlobCountMessage(n: nat): string
  {
    "Output blob had " + NatToString(n) + " images, should have 1"
  }

  const SLICE_MESSAGE := "Failed to get output tensor array view as slice"

  // ---------------------------------------------------------------------------
  // The steps of a call
  // ---------------------------------------------------------------------------

  /** The three shape checks, in order: the source is a three-channel 2-D image, the
      background is one, and both have the same `mat_size`. */
  function Validate(src: Frame, bg: Frame, show: seq<nat> -> string): (r: Option<FilterError>)
    ensures r.None? <==>
              IsThreeChannelImage(src) && IsThreeChannelImage(bg) && src.size == bg.size
    ensures r.Some? ==> r.value.Other?
    // the first failing check decides the message
    ensures !IsThreeChannelImage(src) ==> r == Some(Other(SourceShapeMessage(src, show)))
    ensures IsThreeChannelImage(src) && !IsThreeChannelImage(bg) ==>
              r == Some(Other(BackgroundShapeMessage(bg, show)))
    ensures IsThreeChannelImage(src) && IsThreeChannelImage(bg) && src.size != bg.size ==>
              r == Some(Other(SizeMismatchMessage(src, bg, show)))
  {
    if src.dims != 2 || src.channels != 3 then
      Some(Other(SourceShapeMessage(src, show)))
    else if bg.dims != 2 || bg.channels != 3 then
      Some(Other(BackgroundShapeMessage(bg, show)))
    else if src.size != bg.size then
      Some(Other(SizeMismatchMessage(src, bg, show)))
    else
      None
  }

  /** `tensor2mat`: an output tensor as a `Mat` of the same shape. */
  function Tensor2Mat(cv: Calls, t: Tensor): (r: Result<Frame, FilterError>)
    ensures r.Ok? <==> cv.asSlice(t) && cv.tensorToMat(t).Ok?
    ensures r.Ok? ==> r.value == cv.tensorToMat(t).value
    ensures !cv.asSlice(t) ==> r == Err(Other(SLICE_MESSAGE))
    ensures cv.asSlice(t) && cv.tensorToMat(t).Err? ==> r == Err(FromCv(cv.tensorToMat(t).error))
  {
    if !cv.asSlice(t) then Err(Other(SLICE_MESSAGE))
    else match cv.tensorToMat(t)
      case Err(e) => Err(FromCv(e))
      case Ok(m) => Ok(m)
  }

  /** Converting an output tensor and unpacking the blob, which must hold exactly one
      image (lines 164-172 for `fgr`, 174-181 for `pha`). */
  function DecodeImage(cv: Calls, t: Tensor): (r: Result<Frame, FilterError>)
    ensures r.Ok? <==>
              Tensor2Mat(cv, t).Ok? && cv.imagesFromBlob(Tensor2Mat(cv, t).value).Ok?
              && |cv.imagesFromBlob(Tensor2Mat(cv, t).value).value| == 1
    ensures r.Ok? ==> cv.imagesFromBlob(Tensor2Mat(cv, t).value).value == [r.value]
    ensures Tensor2Mat(cv, t).Err? ==> r == Err(Tensor2Mat(cv, t).error)
    ensures Tensor2Mat(cv, t).Ok? && cv.imagesFromBlob(Tensor2Mat(cv, t).value).Err? ==>
              r == Err(FromCv(cv.imagesFromBlob(Tensor2Mat(cv, t).value).error))
    ensures Tensor2Mat(cv, t).Ok? && cv.imagesFromBlob(Tensor2Mat(cv, t).value).Ok?
            && |cv.imagesFromBlob(Tensor2Mat(cv, t).value).value| != 1 ==>
              r == Err(Other(BlobCountMessage(|cv.imagesFromBlob(Tensor2Mat(cv, t).value).value|)))
  {
    match Tensor2Mat(cv, t)
    case Err(e) => Err(e)
    case Ok(m) =>
      match cv.imagesFromBlob(m)
      case Err(e) => Err(FromCv(e))
      case Ok(images) =>
        if |images| != 1 then Err(Other(BlobCountMessage(|images|))) else Ok(images[0])
  }

  /** `mix_result`: every failure inside it is an OpenCV one. */
  function MixResult(cv: Calls, bg: Frame, pha: Frame, fgr: Frame): (r: Result<Frame, FilterError>)
    ensures r.Ok? <==> cv.mixResult(bg, pha, fgr).Ok?
    ensures r.Ok? ==> r.value == cv.mixResult(bg, pha, fgr).value
    ensures r.Err? ==> r.error == FromCv(cv.mixResult(bg, pha, fgr).error)
  {
    match cv.mixResult(bg, pha, fgr)
    case Err(e) => Err(FromCv(e))
    case Ok(m) => Ok(m)
  }

  /** The composited frame from the `fgr` and `pha` outputs: `fgr` is decoded and
      checked first, then `pha`, then both are blended over the background. */
  function Composite(cv: Calls, bg: Frame, fgr: Tensor, pha: Tensor): (r: Result<Frame, FilterError>)
    ensures DecodeImage(cv, fgr).Err? ==> r == Err(DecodeImage(cv, fgr).error)
    ensures DecodeImage(cv, fgr).Ok? && DecodeImage(cv, pha).Err? ==>
              r == Err(DecodeImage(cv, pha).error)
    ensures r.Ok? <==>
              DecodeImage(cv, fgr).Ok? && DecodeImage(cv, pha).Ok?
              && cv.mixResult(bg, DecodeImage(cv, pha).value, DecodeImage(cv, fgr).value).Ok?
    ensures r.Ok? ==>
              r.value == cv.mixResult(bg, DecodeImage(cv, pha).value, DecodeImage(cv, fgr).value).value
    ensures DecodeImage(cv, fgr).Ok? && DecodeImage(cv, pha).Ok? ==>
              r == MixResult(cv, bg, DecodeImage(cv, pha).value, DecodeImage(cv, fgr).value)
    ensures r.Err? ==> !r.error.OnnxError?
  {
    match DecodeImage(cv, fgr)
    case Err(e) => Err(e)
    case Ok(fgrMat) =>
      match DecodeImage(cv, pha)
      case Err(e) => Err(e)
      case Ok(phaMat) => MixResult(cv, bg, phaMat, fgrMat)
  }

  /** The preview window: `imshow` of the frame, then `wait_key`. */
  function Preview(cv: Calls, f: Frame): (r: Option<CvErr>)
    ensures r.None? <==> cv.imshow(f).None? && cv.waitKey.None?
    ensures cv.imshow(f).Some? ==> r == cv.imshow(f)
    ensures cv.imshow(f).None? ==> r == cv.waitKey
  {
    if cv.imshow(f).Some? then cv.imshow(f) else cv.waitKey
  }

  // ---------------------------------------------------------------------------
  // One call of `filter_inplace`
  // ---------------------------------------------------------------------------

  /** What a call leaves behind: its result, the recurrent tensors, the source frame,
      and the input list the session received, if it was run. */
  datatype Outcome = Outcome(
    result: Result<(), FilterError>,
    rec: Recurrent,
    frame: Frame,
    fed: Option<seq<Tensor>>)

  /** The effect of `filter_inplace` on a filter holding `rec` and `ratio`, whose session
      runs `engine`, called with source `src` and background `bg`. */
  function Transition(rec: Recurrent, ratio: Tensor, engine: Engine, src: Frame, bg: Frame, cv: Calls): (s: Outcome)
    // A failed shape check returns its error and changes nothing; the session is not run.
    ensures Validate(src, bg, cv.showSize).Some? ==>
              s == Outcome(Err(Validate(src, bg, cv.showSize).value), rec, src, None)
    // The session runs exactly when validation and the creation of the image blob succeed,
    ensures s.fed.Some? <==> Validate(src, bg, cv.showSize).None? && cv.blobTensor(src).Ok?
    // and then it receives six inputs: the image, the four held tensors and the ratio.
    ensures s.fed.Some? ==>
              s.fed.value == [cv.blobTensor(src).value, rec.r1, rec.r2, rec.r3, rec.r4, ratio]
    // A call that does not reach the session fails and leaves state and frame alone.
    ensures s.fed.None? ==> s.result.Err? && s.rec == rec && s.frame == src
    ensures s.fed.None? && Validate(src, bg, cv.showSize).None? ==>
              s.result == Err(FromCv(cv.blobTensor(src).error))
    // Once the session has its inputs, every failure leaves the tensors `mem::take` left.
    ensures s.fed.Some? && s.result.Err? ==> s.rec == Taken()
    // An ONNX Runtime error comes from the session, and only from it.
    ensures (s.result.Err? && s.result.error.OnnxError?) <==> (s.fed.Some? && engine(s.fed.value).Err?)
    ensures s.fed.Some? && engine(s.fed.value).Err? ==>
              s.result == Err(FromOrt(engine(s.fed.value).error))
    // Any number of outputs other than six is reported with that number.
    ensures s.fed.Some? && engine(s.fed.value).Ok? && |engine(s.fed.value).value| != 6 ==>
              s.result == Err(Other(ArityMessage(|engine(s.fed.value).value|)))
    // With six outputs, a failure to composite is the call's error.
    ensures s.fed.Some? && engine(s.fed.value).Ok? && |engine(s.fed.value).value| == 6
            && Composite(cv, bg, engine(s.fed.value).value[0], engine(s.fed.value).value[1]).Err? ==>
              s.result == Err(Composite(cv, bg, engine(s.fed.value).value[0], engine(s.fed.value).value[1]).error)
    // Success: outputs 3..6 become the recurrent state and the frame is the composite.
    ensures s.result.Ok? <==>
              s.fed.Some? && engine(s.fed.value).Ok? && |engine(s.fed.value).value| == 6
              && Composite(cv, bg, engine(s.fed.value).value[0], engine(s.fed.value).value[1]).Ok?
              && Preview(cv, s.frame).None?
    ensures s.result.Ok? ==>
              var outs := engine(s.fed.value).value;
              s.rec == Recurrent(outs[2], outs[3], outs[4], outs[5])
    // Only the composite ever replaces the frame ...
    ensures s.frame != src ==>
              s.fed.Some? && engine(s.fed.value).Ok? && |engine(s.fed.value).value| == 6
              && Composite(cv, bg, engine(s.fed.value).value[0], engine(s.fed.value).value[1]) == Ok(s.frame)
    // ... and a call that fails after writing it failed in the preview.
    ensures s.result.Err? && s.frame != src ==>
              Preview(cv, s.frame).Some? && s.result == Err(FromCv(Preview(cv, s.frame).value))
    // Once the composite exists it is in the frame, whether or not the preview then fails,
    // and a failing preview is the call's error.
    ensures s.fed.Some? && engine(s.fed.value).Ok? && |engine(s.fed.value).value| == 6
            && Composite(cv, bg, engine(s.fed.value).value[0], engine(s.fed.value).value[1]).Ok? ==>
              s.frame == Composite(cv, bg, engine(s.fed.value).value[0], engine(s.fed.value).value[1]).value
              && (s.result.Ok? <==> Preview(cv, s.frame).None?)
              && (Preview(cv, s.frame).Some? ==> s.result == Err(FromCv(Preview(cv, s.frame).value)))
  {
    match Validate(src, bg, cv.showSize)
    case Some(e) => Outcome(Err(e), rec, src, None)
    case None =>
      match cv.blobTensor(src)
      case Err(e) => Outcome(Err(FromCv(e)), rec, src, None)
      case Ok(image) =>
        var fed := [image, rec.r1, rec.r2, rec.r3, rec.r4, ratio];
        match engine(fed)
        case Err(e) => Outcome(Err(FromOrt(e)), Taken(), src, Some(fed))
        case Ok(outs) =>
          if |outs| != 6 then
            Outcome(Err(Other(ArityMessage(|outs|))), Taken(), src, Some(fed))
          else
            match Composite(cv, bg, outs[0], outs[1])
            case Err(e) => Outcome(Err(e), Taken(), src, Some(fed))
            case Ok(mixed) =>
              match Preview(cv, mixed)
              case Some(e) => Outcome(Err(FromCv(e)), Taken(), mixed, Some(fed))
              case None => Outcome(Ok(()), Recurrent(outs[2], outs[3], outs[4], outs[5]), mixed, Some(fed))
  }

  // ---------------------------------------------------------------------------
  // Properties relating several calls
  // ---------------------------------------------------------------------------

  /** A successful call hands its output recurrent tensors to the next call's session. */
  lemma RecurrenceCarriesOver(rec: Recurrent, ratio: Tensor, engine: Engine,
                              f1: Frame, bg1: Frame, cv1: Calls, f2: Frame, bg2: Frame, cv2: Calls)
    requires Transition(rec, ratio, engine, f1, bg1, cv1).result.Ok?
    ensures var s1 := Transition(rec, ratio, engine, f1, bg1, cv1);
            var s2 := Transition(s1.rec, ratio, engine, f2, bg2, cv2);
            s2.fed.Some? ==> s2.fed.value[1..5] == engine(s1.fed.value).value[2..6]
  {
  }

  /** After a call that fails once the session has its inputs, the next call that gets
      that far feeds four default, empty tensors instead of the earlier recurrent ones. */
  lemma FailureForgetsRecurrence(rec: Recurrent, ratio: Tensor, engine: Engine,
                                 f1: Frame, bg1: Frame, cv1: Calls, f2: Frame, bg2: Frame, cv2: Calls)
    requires Transition(rec, ratio, engine, f1, bg1, cv1).fed.Some?
    requires Transition(rec, ratio, engine, f1, bg1, cv1).result.Err?
    ensures var s1 := Transition(rec, ratio, engine, f1, bg1, cv1);
            var s2 := Transition(s1.rec, ratio, engine, f2, bg2, cv2);
            s2.fed.Some? ==> s2.fed.value[1..5] == [Default(), Default(), Default(), Default()]
  {
  }

  /** The first call on a new filter feeds four 1x1x1x1 zero tensors and the ratio 0.25. */
  lemma FirstCallInputs(engine: Engine, src: Frame, bg: Frame, cv: Calls)
    ensures var r0 := RecurrentInit();
            var s := Transition(Recurrent(r0, r0, r0, r0), RatioTensor(), engine, src, bg, cv);
            s.fed.Some? ==> s.fed.value[1..] == [r0, r0, r0, r0, Filled([1], 0.25)]
  {
  }

  /** A 100x100 source against a 100x200 background is rejected with the size message
      before the session is run. */
  lemma SizeMismatchRejected(rec: Recurrent, ratio: Tensor, engine: Engine, cv: Calls, d1: seq<int>, d2: seq<int>)
    ensures var src := Frame(2, 3, [100, 100], d1);
            var bg := Frame(2, 3, [100, 200], d2);
            Transition(rec, ratio, engine, src, bg, cv)
              == Outcome(Err(Other(SizeMismatchMessage(src, bg, cv.showSize))), rec, src, None)
  {
  }

  // ---------------------------------------------------------------------------
  // The filter object
  // ---------------------------------------------------------------------------

  class RVMFilter {
    const session: Session
    var downsampleRatio: Tensor
    var r1o: Tensor
    var r2o: Tensor
    var r3o: Tensor
    var r4o: Tensor

    function Rec(): Recurrent
      reads this
    {
      Recurrent(r1o, r2o, r3o, r4o)
    }

    /** The state `RVMFilter::new` sets up. */
    predicate Initial()
      reads this
    {
      Rec() == Recurrent(RecurrentInit(), RecurrentInit(), RecurrentInit(), RecurrentInit())
      && downsampleRatio == RatioTensor()
    }

    constructor (session: Session)
      ensures this.session == session
      ensures Initial()
    {
      this.session := session;
      var recurrentInit := RecurrentInit();
      downsampleRatio := Filled([1], DOWNSAMPLE_RATIO);
      r1o, r2o, r3o, r4o := recurrentInit, recurrentInit, recurrentInit, recurrentInit;
    }

    /** `RVMFilter::new`, given the outcome of building the session from the model
        file: a build error is returned as an ONNX Runtime error. */
    static method New(built: Result<Session, OrtErr>) returns (r: Result<RVMFilter, FilterError>)
      ensures built.Err? ==> r == Err(FromOrt(built.error))
      ensures built.Ok? ==>
                r.Ok? && fresh(r.value) && r.value.session == built.value && r.value.Initial()
    {
      if built.Err? {
        return Err(FromOrt(built.error));
      }
      var filter := new RVMFilter(built.value);
      return Ok(filter);
    }

    /** `filter_inplace`: the result, the new recurrent tensors and the new source frame
        are those of `Transition` on the state before the call; the session is run once
        with the inputs `Transition` reports, or not at all; the ratio and the
        background are left as they were. */
    method FilterInplace(src: Mat, bg: Mat, cv: Calls) returns (r: Result<(), FilterError>)
      requires src != bg
      modifies this, session, src
      ensures var s := Transition(old(Rec()), old(downsampleRatio), session.engine,
                                  old(src.frame), bg.frame, cv);
              r == s.result && Rec() == s.rec && src.frame == s.frame
              && session.runs == old(session.runs) + (if s.fed.Some? then [s.fed.value] else [])
      ensures downsampleRatio == old(downsampleRatio)
      ensures bg.frame == old(bg.frame)
    {
      var invalid := Validate(src.frame, bg.frame, cv.showSize);
      if invalid.Some? {
        return Err(invalid.value);
      }
      var blob := cv.blobTensor(src.frame);
      if blob.Err? {
        return Err(FromCv(blob.error));
      }
      // `mem::take` moves each recurrent tensor out and leaves the default behind
      var t1 := r1o;
      r1o := Default();
      var t2 := r2o;
      r2o := Default();
      var t3 := r3o;
      r3o := Default();
      var t4 := r4o;
      r4o := Default();
      var inputs := [blob.value, t1, t2, t3, t4, downsampleRatio];
      var outputs := session.Run(inputs);
      if outputs.Err? {
        return Err(FromOrt(outputs.error));
      }
      var outs := outputs.value;
      if |outs| != 6 {
        return Err(Other(ArityMessage(|outs|)));
      }
      var fgr := DecodeImage(cv, outs[0]);
      if fgr.Err? {
        return Err(fgr.error);
      }
      var pha := DecodeImage(cv, outs[1]);
      if pha.Err? {
        return Err(pha.error);
      }
      var mixed := MixResult(cv, bg.frame, pha.value, fgr.value);
      if mixed.Err? {
        return Err(mixed.error);
      }
      src.frame := mixed.value;
      var shown := Preview(cv, src.frame);
      if shown.Some? {
        return Err(FromCv(shown.value));
      }
      r1o, r2o, r3o, r4o := outs[2], outs[3], outs[4], outs[5];
      return Ok(());
    }
  }
}
