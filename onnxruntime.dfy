/** The part of ONNX Runtime (and of the `ndarray` crate it re-exports) the filter
    depends on: dynamic-rank tensors, the runtime's error type and an inference session. */
module OnnxRuntime {
  import opened Wrappers

  /** An `onnxruntime::OrtError`, known here only by its displayed text. */
  datatype OrtErr = OrtErr(shown: string)

  /** An `ndarray::ArrayD<f32>`: a shape and the elements in standard order. The
      elements are reals; their floating-point arithmetic is never used here. */
  datatype Tensor = Tensor(shape: seq<nat>, elems: seq<real>)

  /** Number of elements a tensor of the given shape holds. */
  function Product(shape: seq<nat>): nat
  {
    if shape == [] then 1 else shape[0] * Product(shape[1..])
  }

  predicate WellFormed(t: Tensor)
  {
    |t.elems| == Product(t.shape)
  }

  /** `ArrayD::from_elem(IxDyn(shape), x)`; `ArrayD::zeros` is the case `x == 0.0`. */
  function Filled(shape: seq<nat>, x: real): (t: Tensor)
    ensures t.shape == shape && WellFormed(t)
    ensures forall i :: 0 <= i < |t.elems| ==> t.elems[i] == x
  {
    Tensor(shape, seq(Product(shape), _ => x))
  }

  /** `ArrayD::default()`, what `mem::take` leaves behind: the dynamic-rank default
      dimension is `[0]`, so the tensor holds no element at all. */
  function Default(): Tensor
  {
    Tensor([0], [])
  }

  /** The loaded model as the session sees it: ordered inputs to ordered outputs, or a
      runtime error. Its internals are not modelled. */
  type Engine = seq<Tensor> -> Result<seq<Tensor>, OrtErr>

  /** An inference session. `runs` records, in order, every input list `run` received. */
  class Session {
    const engine: Engine
    ghost var runs: seq<seq<Tensor>>

    constructor (engine: Engine)
      ensures this.engine == engine && runs == []
    {
      this.engine := engine;
      runs := [];
    }

    /** `Session::run`: one synchronous call of the engine. */
    method Run(inputs: seq<Tensor>) returns (r: Result<seq<Tensor>, OrtErr>)
      modifies this
      ensures r == engine(inputs)
      ensures runs == old(runs) + [inputs]
    {
      r := engine(inputs);
      runs := runs + [inputs];
    }
  }
}
