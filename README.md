# Quantized GEMM inner product: primitive descriptor

This project models the primitive descriptor `pd_t` of
`gemm_x8s8s32x_inner_product_fwd_t<src_type, dst_type>`, the forward fully
connected layer of mkl-dnn that multiplies an 8-bit source (u8 or s8) by s8
weights into an s32 accumulator. Three things are modelled:

- `init`: the acceptance test of a descriptor;
- `set_default_params`: the default memory formats it fills in;
- `init_scratchpad`: the derived `dst_is_acc_` flag and the scratch buffer it books.

It has three files:

- `types.dfy` (module `MkldnnTypes`) holds the framework's vocabulary. That is
  the data types, propagation kinds, memory formats, status codes, post-op
  entries and scratchpad keys. It also holds `size_t` multiplication.
- `inner_product_spec.dfy` (module `InnerProductSpec`) holds the specification
  as functions:
  - the rank-to-format table;
  - `set_default_params` as four `if (format == any) CHECK(set_format(...))` blocks run in order;
  - the conjunction of `init`;
  - the booked size `sizeof(int32) * MB * OC`, evaluated in 64-bit `size_t`.

  It also holds the lemmas about them.
- `inner_product_pd.dfy` (module `InnerProductPd`) holds the class
  `GemmX8s8s32xInnerProductFwdPd`. Its fields are the four descriptors'
  formats, `dst_is_acc_` and the scratchpad registry, and its methods update
  them in place. Each method's postcondition says that the new state is the
  one the specification functions give for the old state.

The framework calls whose bodies are not part of this model are inputs:

- `set_format` is the function `Framework.setFormat`. It maps a role and a format to the status the call returns.
- `dense_gemm_consitency_check` is `Framework.denseGemmConsistent`. It is applied to the formats left by the defaults.
- `with_bias()` is a boolean of the descriptor. `has_zero_dim_memory()` is true when MB or OC is 0 or when the descriptor's flag for a zero among the other dimensions (IC, spatial) is set.
- `is_relu(true, false)` is a boolean of each post-op entry.
- `dst_is_acc_` is `None` until `init` assigns it. The C++ field is indeterminate until then.

The model follows the code as written; in particular:

- A rank outside 0 and 2–5 is not an error in a build with `NDEBUG` defined. The `default:` case only asserts,
  so the source and weights formats stay `any` and the status stays success.
  Rank 0 is treated as rank 2.
- The destination format defaults to `nc` at every rank, not to a layout chosen by rank.
- The bias format defaults to `x` whenever it is `any`, whether or not there is a bias.
- A rejected `init` is not free of side effects: `set_default_params` runs
  first, and the formats it filled in stay filled in.

## Model

| member | source | states |
|---|---|---|
| `MkldnnTypes.SizeTMul` | src/cpu/gemm_x8s8s32x_inner_product.hpp:120 | a `size_t` product is below 2^64 and equals the exact product whenever that fits |
| `InnerProductSpec.Formats.With` | src/cpu/gemm_x8s8s32x_inner_product.hpp:89-109 | a successful `set_format` changes the format of its own descriptor only |
| `InnerProductSpec.DefaultSrcFormat` | src/cpu/gemm_x8s8s32x_inner_product.hpp:86-95 | the source switch has a case exactly for ranks 0, 2, 3, 4, 5; each case picks a channel-last format (nc, nwc, nhwc, ndhwc) of that rank (rank 2 for 0) |
| `InnerProductSpec.DefaultWeightsFormat` | src/cpu/gemm_x8s8s32x_inner_product.hpp:98-107 | the weights switch has a case for the same ranks; each case picks a spatial-input-output format (io, wio, hwio, dhwio) of the same rank as the source's |
| `InnerProductSpec.RunBlocks` | src/cpu/gemm_x8s8s32x_inner_product.hpp:86-111 | running `if (format == any) CHECK(set_format(...))` blocks in order: a descriptor without a block is untouched; each format is left alone or given its default; success iff every call that is made succeeds, and then every listed descriptor has its default; a failure returns the status of a call that was made |
| `InnerProductSpec.InSourceOrderRunsDefaultBlocks` | src/cpu/gemm_x8s8s32x_inner_product.hpp:86-111 | the four blocks written out in source order (source, destination, weights, bias), each run only after the earlier ones succeeded, are the block runner over that list |
| `InnerProductSpec.EveryRoleHasABlock` | src/cpu/gemm_x8s8s32x_inner_product.hpp:86-109 | `set_default_params` has a block for each of the four descriptors |
| `InnerProductSpec.DefaultParams` | src/cpu/gemm_x8s8s32x_inner_product.hpp:83-112 | success iff every `set_format` that is made succeeds, and then the formats are the defaults; a failure returns the status of a `set_format` that was made; each format is either left alone or given its default |
| `InnerProductSpec.DefaultParamsFillsOnlyAny` | src/cpu/gemm_x8s8s32x_inner_product.hpp:86-109 | a format that is not `any` is never changed; a rank without a case leaves the source and weights formats as they were, whatever the status |
| `InnerProductSpec.RunBlocksIdempotent` | src/cpu/gemm_x8s8s32x_inner_product.hpp:86-109 | running blocks over distinct descriptors a second time returns the same status and changes no format |
| `InnerProductSpec.DefaultParamsIdempotent` | src/cpu/gemm_x8s8s32x_inner_product.hpp:86-109 | a second `set_default_params` returns the same status and changes no format, on the success and on the failure path |
| `InnerProductSpec.ScratchpadBytes` | src/cpu/gemm_x8s8s32x_inner_product.hpp:118-120 | `sizeof(acc_data_t) * MB() * OC()` in `size_t` does not wrap for `int` dimensions: it is exactly 4·MB·OC |
| `InnerProductSpec.ScratchpadProductFits` | src/cpu/gemm_x8s8s32x_inner_product.hpp:120 | for `int` dimensions neither `sizeof(acc_data_t) * MB()` nor its product with `OC()` reaches 2^64 |
| `InnerProductSpec.ScratchpadCoversAccumulator` | src/cpu/gemm_x8s8s32x_inner_product.hpp:115-122 | every element (n, o) of the dense row-major [MB, OC] int32 accumulator lies inside the booked bytes |
| `InnerProductSpec.BookScratchpad` | src/cpu/gemm_x8s8s32x_inner_product.hpp:115-122 | the key `key_iprod_int_dat_in_acc_dt` is booked with 4·MB·OC bytes when `dst_is_acc_` is false; the registry is unchanged when it is true |
| `InnerProductSpec.Init` | src/cpu/gemm_x8s8s32x_inner_product.hpp:49-78 | returns success or unimplemented only; the defaults are applied either way; success iff the defaults succeed and every conjunct holds (forward training or inference, no zero dim, src/dst types equal the template parameters, s8 weights, supported bias type when a bias is present, at most one post-op that is a unit-scale ReLU, consistent GEMM shapes); a rejection leaves `dst_is_acc_` and the registry untouched; success sets `dst_is_acc_` to (dst_type is s32 or f32) and books 4·MB·OC bytes exactly when it is false |
| `InnerProductSpec.BiasTypeIgnoredWithoutBias` | src/cpu/gemm_x8s8s32x_inner_product.hpp:63-65 | without a bias, any bias data type gives the same `init` outcome |
| `InnerProductSpec.PostOpsOnlyGateInit` | src/cpu/gemm_x8s8s32x_inner_product.hpp:66-68 | a post-op list that passes (empty or a single unit-scale ReLU) behaves as no post-ops; any other list is rejected with unimplemented |
| `InnerProductSpec.FreshInitBooksIffNotAccumulator` | src/cpu/gemm_x8s8s32x_inner_product.hpp:71-75 | after a successful `init` of a fresh descriptor, the accumulator buffer is booked iff `dst_is_acc_` is false, and then with 4·MB·OC bytes |
| `InnerProductSpec.InitBooksNonEmptyBuffer` | src/cpu/gemm_x8s8s32x_inner_product.hpp:59-75 | a successful `init` with a destination that is not the accumulator books at least one int32: the `!has_zero_dim_memory()` conjunct rules out MB = 0 and OC = 0 |
| `InnerProductPd.GemmX8s8s32xInnerProductFwdPd.constructor` | src/cpu/gemm_x8s8s32x_inner_product.hpp:39-42 | the descriptor starts with the caller's formats, `dst_is_acc_` unassigned and nothing booked |
| `InnerProductPd.GemmX8s8s32xInnerProductFwdPd.SetFormat` | src/cpu/gemm_x8s8s32x_inner_product.hpp:89-109 | returns the framework's status and, on success only, sets that descriptor's format |
| `InnerProductPd.GemmX8s8s32xInnerProductFwdPd.DefaultBlock` | src/cpu/gemm_x8s8s32x_inner_product.hpp:86-109 | one `if (format == any)` block, with its switch on the rank and its `CHECK(set_format(...))`, leaves the status and formats `DefaultStep` gives; `dst_is_acc_` and the registry are unchanged |
| `InnerProductPd.GemmX8s8s32xInnerProductFwdPd.SetDefaultParams` | src/cpu/gemm_x8s8s32x_inner_product.hpp:83-112 | the returned status and new formats are those of `DefaultParams` on the old formats; `dst_is_acc_` and the registry are unchanged |
| `InnerProductPd.GemmX8s8s32xInnerProductFwdPd.Init` | src/cpu/gemm_x8s8s32x_inner_product.hpp:49-78 | the returned status and the whole new state are those of `InnerProductSpec.Init` on the old state |
| `InnerProductPd.GemmX8s8s32xInnerProductFwdPd.InitScratchpad` | src/cpu/gemm_x8s8s32x_inner_product.hpp:115-122 | the new registry is `BookScratchpad` of the old one, for the assigned `dst_is_acc_` |

## Left out

- The post-processing kernel `pp_kernel_t` (lines 147-177): only its declaration is in the header. Its generated code does bias, scaling, ReLU and rounding in floating point, and none of that is modelled.
- `execute` and `execute_forward` (lines 138-141, 179): the external integer GEMM, the parallel loop and the event signal are not part of this model.
- The primitive's constructor and destructor (lines 125-129): they only allocate and free the kernel object.
- The `engine()->kind() == cpu` assert and the implementation-name macro (lines 44-53): they have no behaviour to state.
- DefaultSrcFormat, DefaultWeightsFormat: the `default:` case of each switch (lines 93 and 105) is `assert(!"unsupported ndims format")`, which aborts a build with assertions enabled; the model follows a build with `NDEBUG` defined, where the rank is not an error and the format stays `any`.
- The bodies of `set_format`, `dense_gemm_consitency_check`, `has_zero_dim_memory`, `with_bias` and `is_relu`: they are inputs of the model (for `has_zero_dim_memory`, only the dimensions other than MB and OC). `set_format` is taken to be deterministic, and on failure it is taken to leave the format unchanged.
- The registry's offsets, alignment and treatment of zero-byte bookings are not part of this model. `book` is a map update from key to byte count.
- Negative dimensions: MB and OC are non-negative C `int` values, so no negative dimension is modelled. The memory descriptors reject negative dimensions before `init` runs.
