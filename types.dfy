/**
 The framework vocabulary that the quantized inner-product descriptor reads:
 data types, propagation kinds, memory formats, status codes, post-op entries,
 the scratchpad keys it books under, and the framework calls whose bodies are
 not part of this model (they are passed in as values of `Framework`).
 */
module MkldnnTypes {

  datatype Option<+T> = None | Some(value: T)

  /** Element types of a tensor (data_type_t). */
  datatype DataType = DataTypeUndef | F32 | S32 | S16 | S8 | U8

  /** Propagation kinds (prop_kind_t); forward_scoring is an alias of ForwardInference. */
  datatype PropKind =
    | PropKindUndef
    | ForwardTraining
    | ForwardInference
    | Backward
    | BackwardData
    | BackwardWeights
    | BackwardBias

  /**
   Memory formats (memory_format_t). The named ones are those the descriptor
   chooses as defaults; `OtherFormat` stands for any format a caller may have
   fixed that the descriptor never chooses itself (nchw, oihw, blocked ones, ...).
   */
  datatype MemoryFormat =
    | Any
    | X
    | Nc
    | Nwc
    | Nhwc
    | Ndhwc
    | Io
    | Wio
    | Hwio
    | Dhwio
    | OtherFormat(id: nat)

  /** Status codes (status_t). */
  datatype Status =
    | Success
    | OutOfMemory
    | TryAgain
    | InvalidArguments
    | NotReady
    | Unimplemented
    | IteratorEnds
    | RuntimeError
    | NotRequired

  /** The four memory primitive descriptors a forward inner product owns. */
  datatype TensorRole = Src | Weights | Bias | Dst

  /** Scratchpad keys this primitive books under. */
  datatype ScratchKey = KeyIprodIntDatInAccDt

  /**
   One entry of the attribute's post-op list. `reluUnitScale` is the verdict of
   the entry's `is_relu(true, false)`: an eltwise ReLU whose scale is 1, with
   any negative slope.
   */
  datatype PostOp = PostOp(reluUnitScale: bool)

  /**
   Framework calls whose bodies are outside this model.
   - `setFormat(role, f)`: the status `set_format(f)` returns on the memory
     descriptor of `role`; it is deterministic in the descriptor's fixed
     dimensions and data type, and on success the descriptor's format becomes `f`.
   - `denseGemmConsistent(src, weights, dst)`: `dense_gemm_consitency_check`
     on the three descriptors, as a function of their (possibly defaulted) formats.
   */
  datatype Framework = Framework(
    setFormat: (TensorRole, MemoryFormat) -> Status,
    denseGemmConsistent: (MemoryFormat, MemoryFormat, MemoryFormat) -> bool)

  /** Largest value of a C `int`; tensor dimensions are held in `int`. */
  const IntMax: int := 0x7fff_ffff

  /** A tensor dimension: a non-negative C `int`. */
  type Dim = d: int | 0 <= d <= IntMax

  /** Number of distinct values of a 64-bit `size_t`. */
  const SizeTModulus: int := 0x1_0000_0000_0000_0000

  /** `sizeof(acc_data_t)`: the accumulator is a 32-bit signed integer. */
  const AccDataTypeSize: nat := 4

  /** Multiplication of two `size_t` operands: wraps modulo 2^64. */
  function SizeTMul(a: nat, b: nat): (r: nat)
    ensures r < SizeTModulus
    ensures a * b < SizeTModulus ==> r == a * b
  {
    (a * b) % SizeTModulus
  }
}
