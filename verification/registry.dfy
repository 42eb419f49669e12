/**
 * The operator registry: the dict literal that maps a qualified TorchScript
 * operator name (`namespace::op`) to the converter class that lowers a node
 * with that operator, and the exact-match lookup over it.
 *
 * The literal is kept line for line, in source order. It is written here as
 * consecutive blocks of lines (one per comment group of the literal, the
 * larger groups cut into blocks of about two dozen lines); `Lines` puts them
 * back together and `OperatorConverterDict` evaluates it with dict-display
 * semantics, so a repeated key would keep its last converter.
 */
module Registry {
  import opened Wrappers
  import opened DictLiteral
  import opened Converters

  /** One `"namespace::op": ConverterClass` line of the literal. */
  type Line = Entry<Converter>

  /** Structural handlers, lines 10-20. */
  const PrimGroup: seq<Line> := [
    Entry("prim::Constant", Prim(PrimConstantConverter)),
    Entry("prim::TupleConstruct", Prim(PrimTupleConstructConverter)),
    Entry("prim::ListConstruct", Prim(PrimListConstructConverter)),
    Entry("prim::DictConstruct", Prim(PrimDictConstructConverter)),
    Entry("prim::ListUnpack", Prim(PrimListUnpackConverter)),
    Entry("prim::GetAttr", Prim(PrimGetAttrConverter)),
    Entry("prim::ConstantChunk", Prim(PrimConstantChunkConverter)),
    Entry("prim::NumToTensor", Prim(PrimNumToTensorConverter)),
    Entry("prim::If", Prim(PrimIfConverter)),
    Entry("aten::__getitem__", Prim(PrimGetItemConverter)),
    Entry("aten::len", Prim(PrimLenConverter))
  ]

  /** Tensor handlers, lines 22-45. */
  const ATenGroupA: seq<Line> := [
    Entry("aten::sign", ATen(AtenSignOperator)),
    Entry("aten::t", ATen(ATenTOperator)),
    Entry("aten::view", ATen(ATenViewOperator)),
    Entry("aten::reshape", ATen(ATenReshapeOperator)),
    Entry("aten::relu", ATen(ATenReluOperator)),
    Entry("aten::relu_", ATen(ATenReluOperator)),
    Entry("aten::relu6", ATen(ATenRelu6Operator)),
    Entry("aten::relu6_", ATen(ATenRelu6Operator)),
    Entry("aten::prelu", ATen(ATenPreluOperator)),
    Entry("aten::leaky_relu", ATen(ATenLeakyReluOperator)),
    Entry("aten::leaky_relu_", ATen(ATenLeakyReluOperator)),
    Entry("aten::elu", ATen(ATenEluOperator)),
    Entry("aten::elu_", ATen(ATenEluOperator)),
    Entry("aten::conv2d", ATen(ATenConv2dOperator)),
    Entry("aten::_convolution", ATen(ATenConvolutionOperator)),
    Entry("aten::batch_norm", ATen(ATenBatchNormOperator)),
    Entry("aten::avg_pool2d", ATen(ATenAvgPool2dOperator)),
    Entry("aten::max_pool2d", ATen(ATenMaxPool2dOperator)),
    Entry("aten::adaptive_avg_pool2d", ATen(ATenAdaptiveAvgPool2dOperator)),
    Entry("aten::adaptive_max_pool2d", ATen(ATenAdaptiveMaxPool2dOperator)),
    Entry("aten::mean", ATen(ATenMeanOperator)),
    Entry("aten::softmax", ATen(ATenSoftmaxOperator)),
    Entry("aten::log_softmax", ATen(ATenLogSoftmaxOperator)),
    Entry("aten::addmm", ATen(ATenAddmmOperator))
  ]

  /** Tensor handlers, lines 46-69. */
  const ATenGroupB: seq<Line> := [
    Entry("aten::dropout", ATen(ATenDropoutOperator)),
    Entry("aten::dropout_", ATen(ATenDropoutOperator)),
    Entry("aten::feature_dropout", ATen(ATenFeatureDropoutOperator)),
    Entry("aten::feature_dropout_", ATen(ATenFeatureDropoutOperator)),
    Entry("aten::contiguous", ATen(ATenContiguousOperator)),
    Entry("aten::permute", ATen(ATenPermuteOperator)),
    Entry("aten::sin", ATen(ATenSinOperator)),
    Entry("aten::cos", ATen(ATenCosOperator)),
    Entry("aten::tanh", ATen(ATenTanhOperator)),
    Entry("aten::tanh_", ATen(ATenTanhOperator)),
    Entry("aten::pow", ATen(ATenPowOperator)),
    Entry("aten::sqrt", ATen(ATenSqrtOperator)),
    Entry("aten::sigmoid", ATen(ATenSigmoidOperator)),
    Entry("aten::sigmoid_", ATen(ATenSigmoidOperator)),
    Entry("aten::add", ATen(ATenAddOperator)),
    Entry("aten::add_", ATen(ATenAddOperator)),
    Entry("aten::sub", ATen(ATenSubOperator)),
    Entry("aten::sub_", ATen(ATenSubOperator)),
    Entry("aten::mul", ATen(ATenMulOperator)),
    Entry("aten::mul_", ATen(ATenMulOperator)),
    Entry("aten::div", ATen(ATenDivOperator)),
    Entry("aten::div_", ATen(ATenDivOperator)),
    Entry("aten::reciprocal", ATen(ATenReciprocalOperator)),
    Entry("aten::reciprocal_", ATen(ATenReciprocalOperator))
  ]

  /** Tensor handlers, lines 70-93. */
  const ATenGroupC: seq<Line> := [
    Entry("aten::rsqrt", ATen(ATenRsqrtOperator)),
    Entry("aten::rsqrt_", ATen(ATenRsqrtOperator)),
    Entry("aten::rsub", ATen(ATenRsubOperator)),
    Entry("aten::rsub_", ATen(ATenRsubOperator)),
    Entry("aten::atan2", ATen(ATenAtan2Operator)),
    Entry("aten::pad", ATen(ATenPadOperator)),
    Entry("aten::constant_pad_nd", ATen(ATenConstantPadNdOperator)),
    Entry("aten::reflection_pad1d", ATen(ATenReflectionPad1dOperator)),
    Entry("aten::reflection_pad2d", ATen(ATenReflectionPad2dOperator)),
    Entry("aten::select", ATen(ATenSelectOperator)),
    Entry("aten::unsqueeze", ATen(ATenUnsqueezeOperator)),
    Entry("aten::unsqueeze_", ATen(ATenUnsqueezeOperator)),
    Entry("aten::squeeze", ATen(ATenSqueezeOperator)),
    Entry("aten::squeeze_", ATen(ATenSqueezeOperator)),
    Entry("aten::slice", ATen(ATenSliceOperator)),
    Entry("aten::stack", ATen(ATenStackOperator)),
    Entry("aten::cat", ATen(ATenCatOperator)),
    Entry("aten::chunk", ATen(ATenChunkOperator)),
    Entry("aten::unsafe_chunk", ATen(ATenChunkOperator)),
    Entry("aten::embedding", ATen(ATenEmbeddingOperator)),
    Entry("aten::linear", ATen(ATenLinearOperator)),
    Entry("aten::lstm", ATen(ATenLstmOperator)),
    Entry("aten::gru", ATen(ATenGruOperator)),
    Entry("aten::transpose", ATen(ATenTransposeOperator))
  ]

  /** Tensor handlers, lines 94-117. */
  const ATenGroupD: seq<Line> := [
    Entry("aten::hardtanh", ATen(ATenHardtanhOperator)),
    Entry("aten::hardtanh_", ATen(ATenHardtanhOperator)),
    Entry("aten::flip", ATen(ATenFlipOperator)),
    Entry("aten::floor", ATen(ATenFloorOperator)),
    Entry("aten::floor_divide", ATen(ATenFloorDivideOperator)),
    Entry("aten::matmul", ATen(ATenMatmulOperator)),
    Entry("aten::mm", ATen(ATenMmOperator)),
    Entry("aten::flatten", ATen(ATenFlattenOperator)),
    Entry("aten::upsample_bilinear2d", ATen(ATenUpsampleBilinear2dOperator)),
    Entry("aten::upsample_nearest2d", ATen(ATenUpsampleNearest2dOperator)),
    Entry("aten::clamp", ATen(ATenClampOperator)),
    Entry("aten::clamp_min", ATen(ATenClampMinOperator)),
    Entry("aten::clamp_max", ATen(ATenClampMaxOperator)),
    Entry("aten::exp", ATen(ATenExpOperator)),
    Entry("aten::log", ATen(ATenLogOperator)),
    Entry("aten::to", ATen(ATenToOperator)),
    Entry("aten::ne", ATen(ATenNeOperator)),
    Entry("aten::softplus", ATen(ATenSoftplusOperator)),
    Entry("aten::layer_norm", ATen(ATenLayerNormOperator)),
    Entry("aten::instance_norm", ATen(ATenInstanceNormOperator)),
    Entry("aten::group_norm", ATen(ATenGroupNormOperator)),
    Entry("aten::index", ATen(ATenIndexOperator)),
    Entry("aten::index_select", ATen(ATenIndexSelectOperator)),
    Entry("aten::clone", ATen(ATenCloneOperator))
  ]

  /** Tensor handlers, lines 118-141. */
  const ATenGroupE: seq<Line> := [
    Entry("aten::repeat", ATen(ATenRepeatOperator)),
    Entry("aten::hardswish", ATen(ATenHardswishOperator)),
    Entry("aten::hardswish_", ATen(ATenHardswishOperator)),
    Entry("aten::hardsigmoid", ATen(ATenHardsigmoidOperator)),
    Entry("aten::hardsigmoid_", ATen(ATenHardsigmoidOperator)),
    Entry("aten::silu", ATen(ATenSiluOperator)),
    Entry("aten::silu_", ATen(ATenSiluOperator)),
    Entry("aten::std", ATen(ATenStdOperator)),
    Entry("aten::var", ATen(ATenVarOperator)),
    Entry("aten::split", ATen(ATenSplitOperator)),
    Entry("aten::split_with_sizes", ATen(ATenSplitWithSizesOperator)),
    Entry("aten::pixel_shuffle", ATen(ATenPixelShuffleOperator)),
    Entry("aten::pixel_unshuffle", ATen(ATenPixelUnshuffleOperator)),
    Entry("aten::argmax", ATen(ATenArgmaxOperator)),
    Entry("aten::argmin", ATen(ATenArgminOperator)),
    Entry("aten::expand", ATen(ATenExpandOperator)),
    Entry("aten::expand_as", ATen(ATenExpandAsOperator)),
    Entry("aten::gather", ATen(ATenGatherOperator)),
    Entry("aten::gelu", ATen(ATenGeluOperator)),
    Entry("aten::gelu_", ATen(ATenGeluOperator)),
    Entry("aten::copy_", ATen(ATenCopyOperator)),
    Entry("aten::bmm", ATen(ATenBmmOperator)),
    Entry("aten::eq", ATen(ATenEqOperator)),
    Entry("aten::neg", ATen(ATenNegOperator))
  ]

  /** Tensor handlers, lines 142-165. */
  const ATenGroupF: seq<Line> := [
    Entry("aten::bitwise_not", ATen(ATenBitwiseNotOperator)),
    Entry("aten::bitwise_and", ATen(ATenBitwiseAndOperator)),
    Entry("aten::bitwise_or", ATen(ATenBitwiseOrOperator)),
    Entry("aten::__and__", ATen(ATenAndOperator)),
    Entry("aten::__or__", ATen(ATenOrOperator)),
    Entry("aten::sum", ATen(ATenSumOperator)),
    Entry("aten::prod", ATen(ATenProdOperator)),
    Entry("aten::min", ATen(ATenMinOperator)),
    Entry("aten::max", ATen(ATenMaxOperator)),
    Entry("aten::amin", ATen(ATenAminOperator)),
    Entry("aten::amax", ATen(ATenAmaxOperator)),
    Entry("aten::glu", ATen(ATenGluOperator)),
    Entry("aten::glu_", ATen(ATenGluOperator)),
    Entry("aten::masked_fill", ATen(ATenMaskedFillOperator)),
    Entry("aten::masked_fill_", ATen(ATenMaskedFillOperator)),
    Entry("aten::gt", ATen(ATenGtOperator)),
    Entry("aten::lt", ATen(ATenLtOperator)),
    Entry("aten::ge", ATen(ATenGeOperator)),
    Entry("aten::le", ATen(ATenLeOperator)),
    Entry("aten::remainder", ATen(ATenRemainderOperator)),
    Entry("aten::where", ATen(ATenWhereOperator)),
    Entry("aten::type_as", ATen(ATenTypeAsOperator)),
    Entry("aten::topk", ATen(ATenTopkOperator)),
    Entry("aten::cumsum", ATen(ATenCumsumOperator))
  ]

  /** Tensor handlers, lines 166-186. */
  const ATenGroupG: seq<Line> := [
    Entry("aten::meshgrid", ATen(ATenMeshgridOperator)),
    Entry("aten::unbind", ATen(ATenUnbindOperator)),
    Entry("aten::fill_", ATen(ATenFillOperator)),
    Entry("aten::roll", ATen(ATenRollOperator)),
    Entry("aten::round", ATen(ATenRoundOperator)),
    Entry("aten::norm", ATen(ATenNormOperator)),
    Entry("aten::frobenius_norm", ATen(ATenFrobeniusNormOperator)),
    Entry("aten::scatter_", ATen(ATenScatterOperator)),
    Entry("aten::abs", ATen(ATenAbsOperator)),
    Entry("aten::im2col", ATen(ATenIm2colOperator)),
    Entry("aten::col2im", ATen(ATenCol2imOperator)),
    Entry("aten::mish", ATen(ATenMishOperator)),
    Entry("aten::addbmm", ATen(ATenAddbmmOperator)),
    Entry("aten::baddbmm", ATen(ATenBaddbmmOperator)),
    Entry("aten::linalg_vector_norm", ATen(ATenLinalgVectorNormOperator)),
    Entry("aten::broadcast_tensors", ATen(ATenBroadcastTensorsOperator)),
    Entry("aten::maximum", ATen(ATenMaximumOperator)),
    Entry("aten::minimum", ATen(ATenMinimumOperator)),
    Entry("aten::index_put", ATen(ATenIndexPutOperator)),
    Entry("aten::index_put_", ATen(ATenIndexPutOperator)),
    Entry("aten::repeat_interleave", ATen(ATenRepeatInterleaveOperator))
  ]

  /** Quantization handlers, lines 188-201. */
  const QuantizedGroupA: seq<Line> := [
    Entry("aten::quantize_per_tensor", Quantized(ATenQuantizePerTensorOperator)),
    Entry("aten::fake_quantize_per_tensor_affine", Quantized(ATenFakeQuantizePerTensorAffineOperator)),
    Entry("aten::fake_quantize_per_channel_affine", Quantized(ATenFakeQuantizePerChannelAffineOperator)),
    Entry("aten::quantized_lstm", Quantized(ATenQuantizedLstmOperator)),
    Entry("aten::dequantize", Quantized(ATenDequantizeOperator)),
    Entry("quantized::conv1d", Quantized(QuantizedConv1dOperator)),
    Entry("quantized::conv1d_relu", Quantized(QuantizedConv1dReluOperator)),
    Entry("quantized::conv2d", Quantized(QuantizedConv2dOperator)),
    Entry("quantized::conv2d_relu", Quantized(QuantizedConv2dReluOperator)),
    Entry("quantized::linear", Quantized(QuantizedLinearOperator)),
    Entry("quantized::linear_relu", Quantized(QuantizedLinearReluOperator)),
    Entry("quantized::relu6", Quantized(QuantizedRelu6Operator)),
    Entry("quantized::mul", Quantized(QuantizedMulOperator)),
    Entry("quantized::mul_scalar", Quantized(QuantizedMulScalarOperator))
  ]

  /** Quantization handlers, lines 202-215. */
  const QuantizedGroupB: seq<Line> := [
    Entry("quantized::cat", Quantized(QuantizedCatOperator)),
    Entry("quantized::batch_norm1d", Quantized(QuantizedBatchNorm1dOperator)),
    Entry("quantized::batch_norm2d", Quantized(QuantizedBatchNorm2dOperator)),
    Entry("quantized::batch_norm2d_relu", Quantized(QuantizedBatchNorm2dReluOperator)),
    Entry("quantized::add", Quantized(QuantizedAddOperator)),
    Entry("quantized::add_relu", Quantized(QuantizedAddReluOperator)),
    Entry("quantized::add_scalar", Quantized(QuantizedAddScalarOperator)),
    Entry("quantized::conv_transpose1d", Quantized(QuantizedConvTranspose1dOperator)),
    Entry("quantized::conv_transpose2d", Quantized(QuantizedConvTranspose2dOperator)),
    Entry("quantized::hardswish", Quantized(QuantizedHardswishOperator)),
    Entry("quantized::leaky_relu", Quantized(QuantizedLeakyReluOperator)),
    Entry("quantized::linear_dynamic", Quantized(QuantizedLinearDynamicOperator)),
    Entry("quantized::linear_relu_dynamic", Quantized(QuantizedLinearReluDynamicOperator)),
    Entry("quantized::elu", Quantized(QuantizedEluOperator))
  ]

  /** Non-tracking handlers, lines 217-228. */
  const NonTrackingGroup: seq<Line> := [
    Entry("aten::Int", TrackConstantOperator),
    Entry("aten::zeros", NoTrackOperator),
    Entry("aten::detach", NoTrackOperator),
    Entry("aten::size", NoTrackOperator),
    Entry("aten::arange", NoTrackOperator),
    Entry("aten::ones", NoTrackOperator),
    Entry("aten::ones_like", NoTrackOperator),
    Entry("aten::zeros_like", NoTrackOperator),
    Entry("aten::empty", NoTrackOperator),
    Entry("aten::new_zeros", NoTrackOperator),
    Entry("aten::new_ones", NoTrackOperator),
    Entry("aten::ScalarImplicit", TrackConstantOperator)
  ]

  /** The tensor group, lines 22-186. */
  const ATenGroup: seq<Line> :=
    ATenGroupA + ATenGroupB + ATenGroupC + ATenGroupD + ATenGroupE + ATenGroupF + ATenGroupG

  /** The quantized group, lines 188-215. */
  const QuantizedGroup: seq<Line> := QuantizedGroupA + QuantizedGroupB

  /** Every line of the literal, lines 10-228, in source order. */
  const Lines: seq<Line> := PrimGroup + ATenGroup + QuantizedGroup + NonTrackingGroup

  /** The literal has 216 entry lines: lines 10-228 less the three group comment lines (21, 187, 216). */
  lemma LineCount()
    ensures |Lines| == 216
  {
  }

  /** `OPERATOR_CONVERTER_DICT`, the dict the literal evaluates to. */
  const OperatorConverterDict: map<string, Converter> := DictOf(Lines)

  /**
   * Looking an operator up by its full qualified name, with the exact-match
   * semantics of a dict: a name no line carries has no converter.
   */
  function Lookup(name: string): (r: Option<Converter>)
    ensures r.None? <==> forall i | 0 <= i < |Lines| :: Lines[i].name != name
    ensures r.Some? ==> Entry(name, r.value) in Lines
  {
    KeysOfDictOf(Lines, name);
    if name in OperatorConverterDict then
      ValueFromALine(Lines, name);
      Some(OperatorConverterDict[name])
    else
      None
  }

  /** An in-place (mutating) operator name ends in `_`, as `aten::add_`. */
  predicate IsInPlace(name: string)
  {
    |name| > 0 && name[|name| - 1] == '_'
  }

  /** An in-place name is some name followed by `_`, and no other name is. */
  lemma InPlaceShape(name: string)
    ensures IsInPlace(name) ==> name == name[..|name| - 1] + "_"
    ensures !IsInPlace(name) ==> forall x: string :: name != x + "_"
  {
    if !IsInPlace(name) {
      forall x: string
        ensures name != x + "_"
      {
        assert (x + "_")[|x|] == '_';
      }
    }
  }

  /** The name with one trailing `_` removed, as `aten::add` for `aten::add_`. */
  function Base(name: string): (b: string)
    ensures IsInPlace(name) ==> b + "_" == name
    ensures !IsInPlace(name) ==> b == name
  {
    if IsInPlace(name) then name[..|name| - 1] else name
  }

  /** The in-place form of an operator name. */
  function InPlace(name: string): (n: string)
    ensures IsInPlace(n) && Base(n) == name
  {
    name + "_"
  }

  /** The qualified name `ns::op`. */
  function Qualify(ns: string, op: string): string
  {
    ns + "::" + op
  }

  /** `name` is `prefix` followed by at least one more character. */
  predicate HasPrefix(name: string, prefix: string)
  {
    |prefix| < |name| && name[..|prefix|] == prefix
  }

  /** `name` is `ns::op` for some non-empty `op`. */
  predicate InNamespace(name: string, ns: string)
  {
    HasPrefix(name, ns + "::")
  }
}
