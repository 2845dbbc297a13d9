/**
 The primitive descriptor `pd_t` of `gemm_x8s8s32x_inner_product_fwd_t<src_type, dst_type>`
 as an object: the formats of its four memory descriptors, `dst_is_acc_` and its
 scratchpad registry are fields that `set_default_params`, `init` and
 `init_scratchpad` update in place. Each method is proved to leave exactly the
 state the functions of InnerProductSpec describe.
 */
module InnerProductPd {
  import opened MkldnnTypes
  import opened InnerProductSpec

  class GemmX8s8s32xInnerProductFwdPd {
    /** Template parameter `src_type` (u8 or s8 in the instantiations). */
    const srcType: DataType
    /** Template parameter `dst_type` (f32, s32, s8 or u8 in the instantiations). */
    const dstType: DataType
    /** The operation descriptor, `desc()`. */
    const desc: Desc
    /** The attribute's post-op list, `attr()->post_ops_`. */
    const postOps: seq<PostOp>
    /** The framework calls the descriptor makes. */
    const fw: Framework

    /** Formats of `src_pd_`, `weights_pd_`, `dst_pd_` and `bias_pd_`. */
    var srcFormat: MemoryFormat
    var weightsFormat: MemoryFormat
    var dstFormat: MemoryFormat
    var biasFormat: MemoryFormat
    /** `dst_is_acc_`; None while it has not been assigned. */
    var dstIsAcc: Option<bool>
    /** The scratchpad registry: bytes booked per key. */
    var scratchpad: map<ScratchKey, nat>

    function Config(): PdConfig {
      PdConfig(srcType, dstType, desc, postOps, fw)
    }

    function CurrentFormats(): Formats
      reads this
    {
      Formats(srcFormat, weightsFormat, dstFormat, biasFormat)
    }

    function State(): PdState
      reads this
    {
      PdState(CurrentFormats(), dstIsAcc, scratchpad)
    }

    /** The descriptor copies the caller's memory descriptors; nothing is derived or booked yet. */
    constructor (srcType: DataType, dstType: DataType, desc: Desc, formats: Formats, postOps: seq<PostOp>, fw: Framework)
      ensures Config() == PdConfig(srcType, dstType, desc, postOps, fw)
      ensures State() == PdState(formats, None, map[])
    {
      this.srcType := srcType;
      this.dstType := dstType;
      this.desc := desc;
      this.postOps := postOps;
      this.fw := fw;
      srcFormat := formats.src;
      weightsFormat := formats.weights;
      dstFormat := formats.dst;
      biasFormat := formats.bias;
      dstIsAcc := None;
      scratchpad := map[];
    }

    /** `set_format(fmt)` on the memory descriptor of `role`: on success its format becomes `fmt`. */
    method SetFormat(role: TensorRole, fmt: MemoryFormat) returns (st: Status)
      modifies this
      ensures st == fw.setFormat(role, fmt)
      ensures CurrentFormats() == if st == Success then old(CurrentFormats()).With(role, fmt) else old(CurrentFormats())
      ensures dstIsAcc == old(dstIsAcc) && scratchpad == old(scratchpad)
    {
      st := fw.setFormat(role, fmt);
      if st == Success {
        match role
        case Src => srcFormat := fmt;
        case Weights => weightsFormat := fmt;
        case Dst => dstFormat := fmt;
        case Bias => biasFormat := fmt;
      }
    }

    /**
     One `if (format == any) CHECK(set_format(...))` block on the descriptor of
     `role`, with its switch on the rank (None for the `default:` case, which
     only asserts).
     */
    method DefaultBlock(role: TensorRole) returns (st: Status)
      modifies this
      ensures (st, CurrentFormats()) == DefaultStep(fw, desc.ndims, role, old(CurrentFormats()))
      ensures dstIsAcc == old(dstIsAcc) && scratchpad == old(scratchpad)
    {
      st := Success;
      var current := match role
        case Src => srcFormat
        case Weights => weightsFormat
        case Dst => dstFormat
        case Bias => biasFormat;
      if current == Any {
        match Choice(desc.ndims, role) {
          case Some(fmt) => st := SetFormat(role, fmt);
          case None =>
        }
      }
    }

    /**
     `set_default_params`: every format still `any` gets its default, source
     and weights by rank; a failing `set_format` is returned at once. A rank
     without a case leaves source and weights `any` and is not an error.
     */
    method SetDefaultParams() returns (st: Status)
      modifies this
      ensures (st, CurrentFormats()) == DefaultParams(fw, desc.ndims, old(CurrentFormats()))
      ensures dstIsAcc == old(dstIsAcc) && scratchpad == old(scratchpad)
    {
      st := DefaultBlock(Src);
      if st != Success { return; }
      st := DefaultBlock(Dst);
      if st != Success { return; }
      st := DefaultBlock(Weights);
      if st != Success { return; }
      st := DefaultBlock(Bias);
    }

    /**
     `init`: applies the default formats, then accepts the descriptor only if
     the whole conjunction holds; on acceptance derives `dst_is_acc_` and books
     the scratchpad, on rejection returns `unimplemented` with neither done.
     */
    method Init() returns (st: Status)
      modifies this
      ensures (st, State()) == InnerProductSpec.Init(Config(), old(State()))
    {
      var defaults := SetDefaultParams();
      if !(defaults == Success && Accepted(Config(), CurrentFormats())) {
        return Unimplemented;
      }
      dstIsAcc := Some(DstIsAccumulator(dstType));
      InitScratchpad();
      return Success;
    }

    /** `init_scratchpad`: books `sizeof(int32) * MB * OC` bytes unless the destination is the accumulator. */
    method InitScratchpad()
      requires dstIsAcc.Some?
      modifies this`scratchpad
      ensures scratchpad == BookScratchpad(dstIsAcc.value, desc.mb, desc.oc, old(scratchpad))
    {
      if !dstIsAcc.value {
        scratchpad := scratchpad[KeyIprodIntDatInAccDt := SizeTMul(SizeTMul(AccDataTypeSize, desc.mb), desc.oc)];
      }
    }
  }
}
