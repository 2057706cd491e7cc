# Fake green-screen: a Dafny model of the per-frame matting filter

This project models the per-frame control flow of the fake-greenscreen background
replacement filter, and proves properties of that model in Dafny. The filter runs a
recurrent background-matting network (RVM) over each camera frame. It keeps four
recurrent tensors `r1o..r4o` and a downsample-ratio tensor between frames, and it
writes the composite of foreground and background into the frame it was given. Every
call into OpenCV, `ndarray` and ONNX Runtime is an abstract step that either yields a
value or fails. The model covers what happens around those calls: which checks run in
which order, what the inference session receives, and which state and which frame
contents survive each way out of the call.

Modules, one per source file or library boundary:

- `Wrappers`: Rust's `Option` and `Result`.
- `Decimal`: Rust's `{}` rendering of an unsigned integer, as used in the error messages.
- `OpenCv`: `Frame`, the value of a `Mat` (dims, channels, `mat_size`, data). `Mat` is a
  class holding a frame. `CvErr` is OpenCV's error type.
- `OnnxRuntime`: `Tensor` (an `ArrayD<f32>`: a shape and its elements), `Default()`
  (what `mem::take` leaves behind: shape `[0]`, no elements), `OrtErr`, and `Session`.
  `Session` is a class whose engine is a function from ordered inputs to ordered outputs
  or an error. It keeps a ghost log `runs` of every input list it received.
- `Filters` (src/filter.rs): `FilterError` and the two `From` conversions that `?` uses.
- `Noop` (src/noopfilter.rs): the identity filter.
- `Rvm` (src/rvmfilter.rs):
  - `Calls`, the outcomes of the library calls, passed as a parameter;
  - the pure specification `Transition` of one call;
  - the class `RVMFilter`, whose method `FilterInplace` updates `r1o..r4o` and the
    caller's frame step by step and is proved equal to `Transition`.
- `Dispatch` (src/filter.rs): the `Filter` trait. Its implementations form a closed set
  (`NoopBox | RvmBox`), so there is one dispatching `FilterInplace` and the trait's
  default `Filter` is written once over that set.

Points where the code behaves differently from what a reader might expect; the model
states what the code does:

- Nothing restores the recurrent tensors after `mem::take` moves them out
  (src/rvmfilter.rs:152-155). A session error, a wrong number of outputs, a decoding
  error, a compositing error or a preview error therefore leaves all four at
  `ArrayD::default()`, not at their pre-call values. `Transition` states this, and
  `FailureForgetsRecurrence` shows the consequence: the next call feeds four empty
  tensors to the network.
- A failure of `blob_from_image` or of the blob's shape queries (src/rvmfilter.rs:127-143)
  comes before `mem::take`, so it does leave the state as it was.
- A wrong number of outputs is reported as `Other("Expected six output tensors, got n")`.
  There is no separate variant for it.
- A failure in the preview calls (src/rvmfilter.rs:183-184) comes after the composite
  has been written into the caller's frame. The frame is overwritten and the state has
  not been committed.

## Model

| member | source | states |
|---|---|---|
| `Decimal.NatToString` | src/rvmfilter.rs:191-194 | a count is rendered as decimal digits with no leading zero unless it is 0 |
| `Rvm.ArityMessageNamesCount` | src/rvmfilter.rs:191-194 | "Expected six output tensors, got n" identifies n: two counts give the same message only if they are equal |
| `Filters.Conversions` | src/filter.rs:10-18 | `From<opencv::Error>` gives `CvError` holding that error and `From<OrtError>` gives `OnnxError` holding that error; both are injective and their results never coincide |
| `Filters.Display` | src/filter.rs:7-17 | every message starts with "Filter failed"; the next character is ':' exactly for `Other`, ';' exactly for `CvError` and ',' exactly for `OnnxError`, followed by the description or the library error's text |
| `Noop.NoopFilter.FilterInplace` | src/noopfilter.rs:17-20 | for every source and background it returns `Ok(())`; the source is outside its frame, so it stays byte-for-byte unchanged |
| `Noop.OnlyDefault` | src/noopfilter.rs:8-15 | the filter has no fields, so every `NoopFilter` equals the one `Default` builds and no call can depend on an earlier one |
| `Dispatch.NoopIsIdentity` | src/noopfilter.rs:17-21 | through the trait, the identity filter succeeds and leaves the source frame as it was |
| `OpenCv.Mat.Clone` | src/filter.rs:26 | the clone is a new buffer holding the same frame |
| `OnnxRuntime.Filled` | src/rvmfilter.rs:46-50 | `zeros`/`from_elem` give a tensor of the requested shape, with as many elements as the shape's product, each equal to the fill value |
| `OnnxRuntime.Session.Run` | src/rvmfilter.rs:159 | the session returns its engine's answer for exactly the inputs given and logs that input list |
| `Rvm.InitialState` | src/rvmfilter.rs:36-55 | the initial recurrent value is the 1x1x1x1 tensor holding 0.0; the ratio tensor has shape [1] and holds 0.25; the default left by `mem::take` is a different value |
| `Rvm.RVMFilter.constructor` | src/rvmfilter.rs:45-55 | a new filter holds the 1x1x1x1 zero tensor in each of `r1o..r4o` and the [1]-shaped 0.25 tensor as its ratio |
| `Rvm.RVMFilter.New` | src/rvmfilter.rs:39-56 | a session build error becomes `OnnxError`; otherwise the result is a new filter in its initial state over that session |
| `Rvm.Validate` | src/rvmfilter.rs:103-125 | the call passes exactly when src and bg are both 2-D with 3 channels and have equal `mat_size`; a failure is always `Other`, and the first failing check (src shape, then bg shape, then size match) decides the message |
| `Rvm.SizeMismatchRejected` | src/rvmfilter.rs:118-125 | a 100x100 source against a 100x200 background is rejected with the size message; state, frame and session are untouched |
| `Rvm.Tensor2Mat` | src/rvmfilter.rs:59-76 | succeeds exactly when `as_slice` and the conversion to a `Mat` both succeed; a failed `as_slice` is `Other` with its message, and a failed conversion is that OpenCV error |
| `Rvm.DecodeImage` | src/rvmfilter.rs:164-172 | succeeds exactly when conversion and unpacking succeed and the blob holds one image, which is the result; a blob with n images other than one gives `Other` with n in the message |
| `Rvm.MixResult` | src/rvmfilter.rs:78-99 | the composite succeeds exactly when the library blend does; every failure is `CvError` holding that OpenCV error |
| `Rvm.Composite` | src/rvmfilter.rs:164-182 | `fgr` is decoded and checked before `pha`, and the first failure is the result; once both decode, the result is exactly `mix_result` of bg with them, its `CvError` included; it never yields `OnnxError` |
| `Rvm.Preview` | src/rvmfilter.rs:183-184 | the preview fails exactly when `imshow` or `wait_key` fails; `imshow`'s error comes first, and after a successful `imshow` the outcome is `wait_key`'s |
| `Rvm.Transition` | src/rvmfilter.rs:102-196 | a failed check changes nothing and runs nothing; the session runs exactly when validation and blob creation pass, and it receives [image, r1, r2, r3, r4, ratio] with the held tensors; a failure before the run keeps state and frame; every failure after it leaves the four default tensors; OnnxError arises exactly from a session error; a count other than six gives the arity message with that count; once six outputs composite, the frame holds the composite, the call succeeds exactly when the preview does, and a preview failure is returned as its `CvError`; on success outputs 3..6 become the state; only the composite replaces the frame |
| `Rvm.RVMFilter.FilterInplace` | src/rvmfilter.rs:102-196 | result, new `r1o..r4o` and new source frame are those of `Transition` on the pre-call state; the session log grows by the inputs `Transition` reports, or not at all; the ratio and the background are unchanged |
| `Rvm.RecurrenceCarriesOver` | src/rvmfilter.rs:150-188 | after a successful call, the next call that reaches the session feeds it the outputs 3..6 of the previous run as r1..r4 |
| `Rvm.FailureForgetsRecurrence` | src/rvmfilter.rs:150-194 | after a call that fails once the session has its inputs, the next call that reaches the session feeds four default, empty tensors as r1..r4 |
| `Rvm.FirstCallInputs` | src/rvmfilter.rs:145-157 | the first call on a new filter feeds four 1x1x1x1 zero tensors and the [1]-shaped ratio 0.25 |
| `Dispatch.FilterInplace` | src/filter.rs:22-23 | through the trait, the result and the new source frame are those of the chosen implementation; for the matting filter the new `r1o..r4o` and session log are those of `Transition` and the ratio is kept; the identity filter leaves the source unchanged; the background is never written |
| `Dispatch.Filter` | src/filter.rs:25-29 | the caller's source and background are never written; on success the result is a new frame equal to what `filter_inplace` makes of a clone; on failure the error of `filter_inplace` is returned unchanged, with no frame; the matting filter's state and session log change as that `filter_inplace` call changes them |

## Left out

- src/plugin.rs: GStreamer element and plugin registration, caps negotiation, the
  `Mutex`-guarded shared state, logging, and the raw-pointer view of the buffer plane
  as a `Mat`. This is plumbing and concurrency; the model assumes one call at a time.
- src/main.rs: pipeline construction, device wiring and the bus loop (I/O).
- src/filtertools.rs: `apply_mask` is an unfinished stub that returns an empty `Mat`
  and opens GUI windows. The filter does not call it.
- The floating-point blending and re-quantisation inside `mix_result`, and its
  `/tmp/dump.tiff` write. `MixResult` is one library step that yields the frame
  `convert_to` writes, or an OpenCV error. The model assumes a failing `mix_result`
  has not written the destination.
- The pixel and tensor layout conversions inside `blob_from_image`, `tensor2mat` and
  `images_from_blob`. These are library behaviour and appear as steps of `Calls`.
  The blob step covers lines 127-149 as one step.
- ONNX Runtime environment and session construction (src/rvmfilter.rs:28-44).
  `RVMFilter.New` takes the outcome of the session build.
- `unsafe impl Send` (src/rvmfilter.rs:26) and every concurrency question.
- The preview window: the model keeps only whether `imshow` and `wait_key` fail.
- `images.get(0)?` after a length check of one cannot fail and is not modelled as
  fallible. `Mat::clone` is infallible (the binding panics instead of returning an
  error).
- The `Debug` rendering of a `MatSize` is an abstract function (`Calls.showSize`).
  `mat_size` equality is equality of the extents.
- f32 element values are reals. No arithmetic on them is modelled.
- The session engine is a function of the inputs it receives. Any hidden state of
  the runtime is not modelled.
- Builds without the `rvm` feature, in which `FilterError` has no ONNX Runtime
  variant. The model is the `rvm` build.
- `FilterError`'s derived `Debug`.
