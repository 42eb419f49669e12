/**
 * The converter classes the operator registry refers to. Their bodies live in
 * the `base`, `prim`, `aten` and `quantized` converter modules, which are not
 * part of this model: here each class is an opaque tag, named as in the source.
 *
 * The classes are sorted by the group of the registry literal that refers to
 * them (no class is referred to from two groups); the two generic handlers of
 * the non-tracking group stand on their own.
 */
module Converters {

  /** The structural handlers of the `prim` group, lines 10-20, in the order the literal names them. */
  datatype PrimConverter =
      PrimConstantConverter
    | PrimTupleConstructConverter
    | PrimListConstructConverter
    | PrimDictConstructConverter
    | PrimListUnpackConverter
    | PrimGetAttrConverter
    | PrimConstantChunkConverter
    | PrimNumToTensorConverter
    | PrimIfConverter
    | PrimGetItemConverter
    | PrimLenConverter

  /** The tensor handlers of the `aten` group, lines 22-186, in the order the literal first names them. */
  datatype ATenConverter =
      AtenSignOperator
    | ATenTOperator
    | ATenViewOperator
    | ATenReshapeOperator
    | ATenReluOperator
    | ATenRelu6Operator
    | ATenPreluOperator
    | ATenLeakyReluOperator
    | ATenEluOperator
    | ATenConv2dOperator
    | ATenConvolutionOperator
    | ATenBatchNormOperator
    | ATenAvgPool2dOperator
    | ATenMaxPool2dOperator
    | ATenAdaptiveAvgPool2dOperator
    | ATenAdaptiveMaxPool2dOperator
    | ATenMeanOperator
    | ATenSoftmaxOperator
    | ATenLogSoftmaxOperator
    | ATenAddmmOperator
    | ATenDropoutOperator
    | ATenFeatureDropoutOperator
    | ATenContiguousOperator
    | ATenPermuteOperator
    | ATenSinOperator
    | ATenCosOperator
    | ATenTanhOperator
    | ATenPowOperator
    | ATenSqrtOperator
    | ATenSigmoidOperator
    | ATenAddOperator
    | ATenSubOperator
    | ATenMulOperator
    | ATenDivOperator
    | ATenReciprocalOperator
    | ATenRsqrtOperator
    | ATenRsubOperator
    | ATenAtan2Operator
    | ATenPadOperator
    | ATenConstantPadNdOperator
    | ATenReflectionPad1dOperator
    | ATenReflectionPad2dOperator
    | ATenSelectOperator
    | ATenUnsqueezeOperator
    | ATenSqueezeOperator
    | ATenSliceOperator
    | ATenStackOperator
    | ATenCatOperator
    | ATenChunkOperator
    | ATenEmbeddingOperator
    | ATenLinearOperator
    | ATenLstmOperator
    | ATenGruOperator
    | ATenTransposeOperator
    | ATenHardtanhOperator
    | ATenFlipOperator
    | ATenFloorOperator
    | ATenFloorDivideOperator
    | ATenMatmulOperator
    | ATenMmOperator
    | ATenFlattenOperator
    | ATenUpsampleBilinear2dOperator
    | ATenUpsampleNearest2dOperator
    | ATenClampOperator
    | ATenClampMinOperator
    | ATenClampMaxOperator
    | ATenExpOperator
    | ATenLogOperator
    | ATenToOperator
    | ATenNeOperator
    | ATenSoftplusOperator
    | ATenLayerNormOperator
    | ATenInstanceNormOperator
    | ATenGroupNormOperator
    | ATenIndexOperator
    | ATenIndexSelectOperator
    | ATenCloneOperator
    | ATenRepeatOperator
    | ATenHardswishOperator
    | ATenHardsigmoidOperator
    | ATenSiluOperator
    | ATenStdOperator
    | ATenVarOperator
    | ATenSplitOperator
    | ATenSplitWithSizesOperator
    | ATenPixelShuffleOperator
    | ATenPixelUnshuffleOperator
    | ATenArgmaxOperator
    | ATenArgminOperator
    | ATenExpandOperator
    | ATenExpandAsOperator
    | ATenGatherOperator
    | ATenGeluOperator
    | ATenCopyOperator
    | ATenBmmOperator
    | ATenEqOperator
    | ATenNegOperator
    | ATenBitwiseNotOperator
    | ATenBitwiseAndOperator
    | ATenBitwiseOrOperator
    | ATenAndOperator
    | ATenOrOperator
    | ATenSumOperator
    | ATenProdOperator
    | ATenMinOperator
    | ATenMaxOperator
    | ATenAminOperator
    | ATenAmaxOperator
    | ATenGluOperator
    | ATenMaskedFillOperator
    | ATenGtOperator
    | ATenLtOperator
    | ATenGeOperator
    | ATenLeOperator
    | ATenRemainderOperator
    | ATenWhereOperator
    | ATenTypeAsOperator
    | ATenTopkOperator
    | ATenCumsumOperator
    | ATenMeshgridOperator
    | ATenUnbindOperator
    | ATenFillOperator
    | ATenRollOperator
    | ATenRoundOperator
    | ATenNormOperator
    | ATenFrobeniusNormOperator
    | ATenScatterOperator
    | ATenAbsOperator
    | ATenIm2colOperator
    | ATenCol2imOperator
    | ATenMishOperator
    | ATenAddbmmOperator
    | ATenBaddbmmOperator
    | ATenLinalgVectorNormOperator
    | ATenBroadcastTensorsOperator
    | ATenMaximumOperator
    | ATenMinimumOperator
    | ATenIndexPutOperator
    | ATenRepeatInterleaveOperator

  /** The handlers of the `quantized` group, lines 188-215, in the order the literal names them. */
  datatype QuantizedConverter =
      ATenQuantizePerTensorOperator
    | ATenFakeQuantizePerTensorAffineOperator
    | ATenFakeQuantizePerChannelAffineOperator
    | ATenQuantizedLstmOperator
    | ATenDequantizeOperator
    | QuantizedConv1dOperator
    | QuantizedConv1dReluOperator
    | QuantizedConv2dOperator
    | QuantizedConv2dReluOperator
    | QuantizedLinearOperator
    | QuantizedLinearReluOperator
    | QuantizedRelu6Operator
    | QuantizedMulOperator
    | QuantizedMulScalarOperator
    | QuantizedCatOperator
    | QuantizedBatchNorm1dOperator
    | QuantizedBatchNorm2dOperator
    | QuantizedBatchNorm2dReluOperator
    | QuantizedAddOperator
    | QuantizedAddReluOperator
    | QuantizedAddScalarOperator
    | QuantizedConvTranspose1dOperator
    | QuantizedConvTranspose2dOperator
    | QuantizedHardswishOperator
    | QuantizedLeakyReluOperator
    | QuantizedLinearDynamicOperator
    | QuantizedLinearReluDynamicOperator
    | QuantizedEluOperator

  /** A converter class: one of a group, or one of the two generic non-tracking handlers. */
  datatype Converter =
      Prim(prim: PrimConverter)
    | ATen(aten: ATenConverter)
    | Quantized(quantized: QuantizedConverter)
    | TrackConstantOperator
    | NoTrackOperator

  /**
   * The group a converter class belongs to: structural `prim` handlers, tensor
   * handlers, quantization handlers, and the two generic handlers of the
   * non-tracking group. As their names suggest, one of those tracks its node
   * as a constant and the other does not track it; their bodies are not part
   * of this model.
   */
  datatype Category = Structural | Tensor | Quantization | TrackConstant | NoTrack

  /** The category of a converter class; each generic handler is alone in its category. */
  function CategoryOf(c: Converter): (cat: Category)
    ensures cat == Structural <==> c.Prim?
    ensures cat == Quantization <==> c.Quantized?
    ensures cat == TrackConstant ==> c == TrackConstantOperator
    ensures cat == NoTrack ==> c == NoTrackOperator
  {
    match c
    case Prim(_) => Structural
    case ATen(_) => Tensor
    case Quantized(_) => Quantization
    case TrackConstantOperator => TrackConstant
    case NoTrackOperator => NoTrack
  }
}
