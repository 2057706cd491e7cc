/** The `Filter` trait of src/filter.rs. Its implementations form a closed set, so the
    trait object the video element holds is a tagged variant here, and the trait's
    default `filter` is written once over that variant. */
module Dispatch {
  import opened Wrappers
  import opened OpenCv
  import opened Filters
  import opened Noop
  import opened Rvm

  datatype AnyFilter = NoopBox(noop: NoopFilter) | RvmBox(rvm: RVMFilter)

  /** The objects a call of the filter may change, besides the frame it is given. */
  ghost function Footprint(f: AnyFilter): set<object>
  {
    if f.RvmBox? then {f.rvm, f.rvm.session} else {}
  }

  /** What `filter_inplace` returns and leaves in the source frame. */
  datatype Effect = Effect(result: Result<(), FilterError>, frame: Frame)

  ghost function Expected(f: AnyFilter, src: Frame, bg: Frame, cv: Calls): Effect
    reads Footprint(f)
  {
    match f
    case NoopBox(_) => Effect(Ok(()), src)
    case RvmBox(m) =>
      var s := Pending(m, src, bg, cv);
      Effect(s.result, s.frame)
  }

  /** The outcome of one `filter_inplace` call on the matting filter in its current state. */
  ghost function Pending(m: RVMFilter, src: Frame, bg: Frame, cv: Calls): Outcome
    reads m
  {
    Transition(m.Rec(), m.downsampleRatio, m.session.engine, src, bg, cv)
  }

  /** The identity filter succeeds and returns its source frame unchanged. */
  lemma NoopIsIdentity(n: NoopFilter, src: Frame, bg: Frame, cv: Calls)
    ensures Expected(NoopBox(n), src, bg, cv) == Effect(Ok(()), src)
  {
  }

  /** `filter_inplace` through the trait. */
  method FilterInplace(f: AnyFilter, src: Mat, bg: Mat, cv: Calls) returns (r: Result<(), FilterError>)
    requires src != bg
    modifies Footprint(f), src
    ensures Effect(r, src.frame) == old(Expected(f, src.frame, bg.frame, cv))
    ensures f.NoopBox? ==> unchanged(src)
    // the matting filter's recurrent tensors, ratio and session log are as `Transition` says
    ensures f.RvmBox? ==>
              var s := old(Pending(f.rvm, src.frame, bg.frame, cv));
              f.rvm.Rec() == s.rec && f.rvm.downsampleRatio == old(f.rvm.downsampleRatio)
              && f.rvm.session.runs == old(f.rvm.session.runs) + (if s.fed.Some? then [s.fed.value] else [])
    ensures unchanged(bg)
  {
    match f
    case NoopBox(n) =>
      r := n.FilterInplace(src, bg);
    case RvmBox(m) =>
      r := m.FilterInplace(src, bg, cv);
  }

  /** The trait's default `filter`: the filter runs in place on a clone of the source,
      which it returns on success; on failure its error is passed on and no frame is
      returned. The caller's source and background are never written. */
  method Filter(f: AnyFilter, src: Mat, bg: Mat, cv: Calls) returns (r: Result<Mat, FilterError>)
    modifies Footprint(f)
    ensures unchanged(src) && unchanged(bg)
    ensures var e := old(Expected(f, src.frame, bg.frame, cv));
            (r.Ok? <==> e.result.Ok?)
            && (r.Ok? ==> fresh(r.value) && r.value.frame == e.frame)
            && (r.Err? ==> e.result == Err(r.error))
    ensures f.RvmBox? ==>
              var s := old(Pending(f.rvm, src.frame, bg.frame, cv));
              f.rvm.Rec() == s.rec && f.rvm.downsampleRatio == old(f.rvm.downsampleRatio)
              && f.rvm.session.runs == old(f.rvm.session.runs) + (if s.fed.Some? then [s.fed.value] else [])
  {
    var modImage := src.Clone();
    var res := FilterInplace(f, modImage, bg, cv);
    if res.Err? {
      return Err(res.error);
    }
    return Ok(modImage);
  }
}
