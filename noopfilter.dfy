/** The identity filter (src/noopfilter.rs), the fallback when no matting backend is
    configured. */
module Noop {
  import opened Wrappers
  import opened OpenCv
  import opened Filters

  /** A filter with no fields. */
  datatype NoopFilter = NoopFilter
  {
    /** Succeeds for every source and background, whatever their shapes. The source
        is outside the frame of this method, so every byte of it stays as it was. */
    method FilterInplace(src: Mat, bg: Mat) returns (r: Result<(), FilterError>)
      ensures r == Ok(())
    {
      r := Ok(());
    }
  }

  /** `Default for NoopFilter`: the empty struct. */
  function Default(): NoopFilter
  {
    NoopFilter
  }

  /** Having no fields, every `NoopFilter` is the default one, so no call of it can
      depend on an earlier call. */
  lemma OnlyDefault(n: NoopFilter)
    ensures n == Default()
  {
  }
}
