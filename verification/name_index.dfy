/**
 * The registry literal indexed by key length, and the proof built on it that
 * no key is written on two lines of the literal.
 *
 * For each key length the index lists the positions in `Lines` (counted from
 * 0, so source line 10 is position 0) of the lines whose key has that length,
 * and spells those keys out once more in the same order. The spelled-out keys
 * are compared among themselves; each listed position is checked to hold the
 * key spelled out for it; the pigeonhole lemma of `LengthIndex` does the rest.
 */
module NameIndex {
  import opened DictLiteral
  import opened LengthIndex
  import opened Registry

  /** Positions of the keys with 7 characters. */
  const At7: seq<nat> := [12]
  /** The keys at those positions. */
  const Keys7: seq<string> := ["aten::t"]

  /** Positions of the keys with 8 characters. */
  const At8: seq<nat> := [8, 89, 98, 99, 129, 146, 147, 148, 149]
  /** The keys at those positions. */
  const Keys8: seq<string> := [
    "prim::If", "aten::mm", "aten::to", "aten::ne",
    "aten::eq", "aten::gt", "aten::lt", "aten::ge",
    "aten::le"
  ]

  /** Positions of the keys with 9 characters. */
  const At9: seq<nat> := [10, 22, 41, 42, 45, 49, 51, 53, 55, 64, 75, 81, 96, 97, 114, 115, 128, 130, 136, 138, 139, 142, 163, 204]
  /** The keys at those positions. */
  const Keys9: seq<string> := [
    "aten::len", "aten::elu", "aten::sin", "aten::cos",
    "aten::pow", "aten::add", "aten::sub", "aten::mul",
    "aten::div", "aten::pad", "aten::cat", "aten::gru",
    "aten::exp", "aten::log", "aten::std", "aten::var",
    "aten::bmm", "aten::neg", "aten::sum", "aten::min",
    "aten::max", "aten::glu", "aten::abs", "aten::Int"
  ]

  /** Positions of the keys with 10 characters. */
  const At10: seq<nat> := [11, 13, 15, 23, 31, 43, 46, 50, 52, 54, 56, 61, 80, 85, 112, 125, 137, 140, 141, 143, 153, 158, 160, 166, 207, 209]
  /** The keys at those positions. */
  const Keys10: seq<string> := [
    "aten::sign", "aten::view", "aten::relu", "aten::elu_",
    "aten::mean", "aten::tanh", "aten::sqrt", "aten::add_",
    "aten::sub_", "aten::mul_", "aten::div_", "aten::rsub",
    "aten::lstm", "aten::flip", "aten::silu", "aten::gelu",
    "aten::prod", "aten::amin", "aten::amax", "aten::glu_",
    "aten::topk", "aten::roll", "aten::norm", "aten::mish",
    "aten::size", "aten::ones"
  ]

  /** Positions of the keys with 11 characters. */
  const At11: seq<nat> := [16, 17, 19, 34, 44, 59, 62, 63, 73, 74, 76, 86, 93, 104, 106, 113, 116, 126, 127, 151, 157, 159, 205, 212]
  /** The keys at those positions. */
  const Keys11: seq<string> := [
    "aten::relu_", "aten::relu6", "aten::prelu", "aten::addmm",
    "aten::tanh_", "aten::rsqrt", "aten::rsub_", "aten::atan2",
    "aten::slice", "aten::stack", "aten::chunk", "aten::floor",
    "aten::clamp", "aten::index", "aten::clone", "aten::silu_",
    "aten::split", "aten::gelu_", "aten::copy_", "aten::where",
    "aten::fill_", "aten::round", "aten::zeros", "aten::empty"
  ]

  /** Positions of the keys with 12 characters. */
  const At12: seq<nat> := [18, 24, 60, 68, 79, 88, 107, 120, 121, 122, 124, 135, 154, 156, 164, 165, 167, 206, 208]
  /** The keys at those positions. */
  const Keys12: seq<string> := [
    "aten::relu6_", "aten::conv2d", "aten::rsqrt_", "aten::select",
    "aten::linear", "aten::matmul", "aten::repeat", "aten::argmax",
    "aten::argmin", "aten::expand", "aten::gather", "aten::__or__",
    "aten::cumsum", "aten::unbind", "aten::im2col", "aten::col2im",
    "aten::addbmm", "aten::detach", "aten::arange"
  ]

  /** Positions of the keys with 13 characters. */
  const At13: seq<nat> := [5, 14, 32, 35, 40, 47, 71, 90, 134, 152, 168, 171, 172]
  /** The keys at those positions. */
  const Keys13: seq<string> := [
    "prim::GetAttr", "aten::reshape", "aten::softmax", "aten::dropout",
    "aten::permute", "aten::sigmoid", "aten::squeeze", "aten::flatten",
    "aten::__and__", "aten::type_as", "aten::baddbmm", "aten::maximum",
    "aten::minimum"
  ]

  /** Positions of the keys with 14 characters. */
  const At14: seq<nat> := [0, 36, 48, 72, 83, 100, 155, 162, 188, 190, 194, 203, 214]
  /** The keys at those positions. */
  const Keys14: seq<string> := [
    "prim::Constant", "aten::dropout_", "aten::sigmoid_", "aten::squeeze_",
    "aten::hardtanh", "aten::softplus", "aten::meshgrid", "aten::scatter_",
    "quantized::mul", "quantized::cat", "quantized::add", "quantized::elu",
    "aten::new_ones"
  ]

  /** Positions of the keys with 15 characters. */
  const At15: seq<nat> := [69, 78, 82, 84, 94, 95, 108, 123, 150, 173, 210, 213]
  /** The keys at those positions. */
  const Keys15: seq<string> := [
    "aten::unsqueeze", "aten::embedding", "aten::transpose", "aten::hardtanh_",
    "aten::clamp_min", "aten::clamp_max", "aten::hardswish", "aten::expand_as",
    "aten::remainder", "aten::index_put", "aten::ones_like", "aten::new_zeros"
  ]

  /** Positions of the keys with 16 characters. */
  const At16: seq<nat> := [4, 20, 26, 27, 28, 39, 57, 70, 101, 103, 109, 133, 174, 180, 187, 211]
  /** The keys at those positions. */
  const Keys16: seq<string> := [
    "prim::ListUnpack", "aten::leaky_relu", "aten::batch_norm", "aten::avg_pool2d",
    "aten::max_pool2d", "aten::contiguous", "aten::reciprocal", "aten::unsqueeze_",
    "aten::layer_norm", "aten::group_norm", "aten::hardswish_", "aten::bitwise_or",
    "aten::index_put_", "aten::dequantize", "quantized::relu6", "aten::zeros_like"
  ]

  /** Positions of the keys with 17 characters. */
  const At17: seq<nat> := [7, 9, 21, 33, 58, 110, 131, 132, 144, 181, 183, 185]
  /** The keys at those positions. */
  const Keys17: seq<string> := [
    "prim::NumToTensor", "aten::__getitem__", "aten::leaky_relu_", "aten::log_softmax",
    "aten::reciprocal_", "aten::hardsigmoid", "aten::bitwise_not", "aten::bitwise_and",
    "aten::masked_fill", "quantized::conv1d", "quantized::conv2d", "quantized::linear"
  ]

  /** Positions of the keys with 18 characters. */
  const At18: seq<nat> := [25, 77, 87, 105, 111, 145]
  /** The keys at those positions. */
  const Keys18: seq<string> := [
    "aten::_convolution", "aten::unsafe_chunk", "aten::floor_divide", "aten::index_select",
    "aten::hardsigmoid_", "aten::masked_fill_"
  ]

  /** Positions of the keys with 19 characters. */
  const At19: seq<nat> := [2, 3, 6, 102, 118, 195]
  /** The keys at those positions. */
  const Keys19: seq<string> := [
    "prim::ListConstruct", "prim::DictConstruct", "prim::ConstantChunk", "aten::instance_norm",
    "aten::pixel_shuffle", "quantized::add_relu"
  ]

  /** Positions of the keys with 20 characters. */
  const At20: seq<nat> := [1, 161, 179, 199, 215]
  /** The keys at those positions. */
  const Keys20: seq<string> := [
    "prim::TupleConstruct", "aten::frobenius_norm", "aten::quantized_lstm", "quantized::hardswish",
    "aten::ScalarImplicit"
  ]

  /** Positions of the keys with 21 characters. */
  const At21: seq<nat> := [37, 65, 119, 189, 196, 200]
  /** The keys at those positions. */
  const Keys21: seq<string> := [
    "aten::feature_dropout", "aten::constant_pad_nd", "aten::pixel_unshuffle", "quantized::mul_scalar",
    "quantized::add_scalar", "quantized::leaky_relu"
  ]

  /** Positions of the keys with 22 characters. */
  const At22: seq<nat> := [38, 66, 67, 117, 182, 184, 186]
  /** The keys at those positions. */
  const Keys22: seq<string> := [
    "aten::feature_dropout_", "aten::reflection_pad1d", "aten::reflection_pad2d", "aten::split_with_sizes",
    "quantized::conv1d_relu", "quantized::conv2d_relu", "quantized::linear_relu"
  ]

  /** Positions of the keys with 23 characters. */
  const At23: seq<nat> := [170, 175, 191, 192]
  /** The keys at those positions. */
  const Keys23: seq<string> := ["aten::broadcast_tensors", "aten::repeat_interleave", "quantized::batch_norm1d", "quantized::batch_norm2d"]

  /** Positions of the keys with 24 characters. */
  const At24: seq<nat> := [92, 169]
  /** The keys at those positions. */
  const Keys24: seq<string> := ["aten::upsample_nearest2d", "aten::linalg_vector_norm"]

  /** Positions of the keys with 25 characters. */
  const At25: seq<nat> := [29, 30, 91, 176, 201]
  /** The keys at those positions. */
  const Keys25: seq<string> := [
    "aten::adaptive_avg_pool2d", "aten::adaptive_max_pool2d", "aten::upsample_bilinear2d", "aten::quantize_per_tensor",
    "quantized::linear_dynamic"
  ]

  /** Positions of the keys with 27 characters. */
  const At27: seq<nat> := [197, 198]
  /** The keys at those positions. */
  const Keys27: seq<string> := ["quantized::conv_transpose1d", "quantized::conv_transpose2d"]

  /** Positions of the keys with 28 characters. */
  const At28: seq<nat> := [193]
  /** The keys at those positions. */
  const Keys28: seq<string> := ["quantized::batch_norm2d_relu"]

  /** Positions of the keys with 30 characters. */
  const At30: seq<nat> := [202]
  /** The keys at those positions. */
  const Keys30: seq<string> := ["quantized::linear_relu_dynamic"]

  /** Positions of the keys with 37 characters. */
  const At37: seq<nat> := [177]
  /** The keys at those positions. */
  const Keys37: seq<string> := ["aten::fake_quantize_per_tensor_affine"]

  /** Positions of the keys with 38 characters. */
  const At38: seq<nat> := [178]
  /** The keys at those positions. */
  const Keys38: seq<string> := ["aten::fake_quantize_per_channel_affine"]

  /** The index: key length to positions. */
  const ByLength: map<nat, seq<nat>> := map[
    7 := At7, 8 := At8, 9 := At9, 10 := At10, 11 := At11, 12 := At12,
    13 := At13, 14 := At14, 15 := At15, 16 := At16, 17 := At17, 18 := At18,
    19 := At19, 20 := At20, 21 := At21, 22 := At22, 23 := At23, 24 := At24,
    25 := At25, 27 := At27, 28 := At28, 30 := At30, 37 := At37, 38 := At38
  ]

  /** Every key is shorter than this. */
  const KeyLengthBound: nat := 39

  /** The one key with 7 characters. */
  lemma Keys7Apart()
    ensures |Keys7| == |At7|
    ensures forall p | 0 <= p < |Keys7| :: |Keys7[p]| == 7
  {
  }

  /** Positions 0 to 0 of the length-7 list hold the keys spelled out for them. */
  lemma Keys7Placed0()
    ensures forall p | 0 <= p < 1 :: At7[p] < |Lines| && Lines[At7[p]].name == Keys7[p]
  {
  }

  lemma Bucket7()
    ensures 7 in ByLength && ListedAt(Lines, ByLength, 7) && ApartAt(Lines, ByLength, 7)
  {
    Keys7Apart();
    Keys7Placed0();
  }

  /** The keys with 8 characters are 9 different strings of that length. */
  lemma Keys8Apart()
    ensures |Keys8| == |At8|
    ensures forall p | 0 <= p < |Keys8| :: |Keys8[p]| == 8
    ensures forall p, q | 0 <= p < q < |Keys8| :: Keys8[p] != Keys8[q]
  {
  }

  /** Positions 0 to 3 of the length-8 list hold the keys spelled out for them. */
  lemma Keys8Placed0()
    ensures forall p | 0 <= p < 4 :: At8[p] < |Lines| && Lines[At8[p]].name == Keys8[p]
  {
  }

  /** Positions 4 to 7 of the length-8 list hold the keys spelled out for them. */
  lemma Keys8Placed1()
    ensures forall p | 4 <= p < 8 :: At8[p] < |Lines| && Lines[At8[p]].name == Keys8[p]
  {
  }

  /** Positions 8 to 8 of the length-8 list hold the keys spelled out for them. */
  lemma Keys8Placed2()
    ensures forall p | 8 <= p < 9 :: At8[p] < |Lines| && Lines[At8[p]].name == Keys8[p]
  {
  }

  lemma Bucket8()
    ensures 8 in ByLength && ListedAt(Lines, ByLength, 8) && ApartAt(Lines, ByLength, 8)
  {
    Keys8Apart();
    Keys8Placed0();
    Keys8Placed1();
    Keys8Placed2();
  }

  /** The keys with 9 characters are 24 different strings of that length. */
  lemma Keys9Apart()
    ensures |Keys9| == |At9|
    ensures forall p | 0 <= p < |Keys9| :: |Keys9[p]| == 9
    ensures forall p, q | 0 <= p < q < |Keys9| :: Keys9[p] != Keys9[q]
  {
  }

  /** Positions 0 to 3 of the length-9 list hold the keys spelled out for them. */
  lemma Keys9Placed0()
    ensures forall p | 0 <= p < 4 :: At9[p] < |Lines| && Lines[At9[p]].name == Keys9[p]
  {
  }

  /** Positions 4 to 7 of the length-9 list hold the keys spelled out for them. */
  lemma Keys9Placed1()
    ensures forall p | 4 <= p < 8 :: At9[p] < |Lines| && Lines[At9[p]].name == Keys9[p]
  {
  }

  /** Positions 8 to 11 of the length-9 list hold the keys spelled out for them. */
  lemma Keys9Placed2()
    ensures forall p | 8 <= p < 12 :: At9[p] < |Lines| && Lines[At9[p]].name == Keys9[p]
  {
  }

  /** Positions 12 to 15 of the length-9 list hold the keys spelled out for them. */
  lemma Keys9Placed3()
    ensures forall p | 12 <= p < 16 :: At9[p] < |Lines| && Lines[At9[p]].name == Keys9[p]
  {
  }

  /** Positions 16 to 19 of the length-9 list hold the keys spelled out for them. */
  lemma Keys9Placed4()
    ensures forall p | 16 <= p < 20 :: At9[p] < |Lines| && Lines[At9[p]].name == Keys9[p]
  {
  }

  /** Positions 20 to 23 of the length-9 list hold the keys spelled out for them. */
  lemma Keys9Placed5()
    ensures forall p | 20 <= p < 24 :: At9[p] < |Lines| && Lines[At9[p]].name == Keys9[p]
  {
  }

  lemma Bucket9()
    ensures 9 in ByLength && ListedAt(Lines, ByLength, 9) && ApartAt(Lines, ByLength, 9)
  {
    Keys9Apart();
    Keys9Placed0();
    Keys9Placed1();
    Keys9Placed2();
    Keys9Placed3();
    Keys9Placed4();
    Keys9Placed5();
  }

  /** The keys with 10 characters are 26 different strings of that length. */
  lemma Keys10Apart()
    ensures |Keys10| == |At10|
    ensures forall p | 0 <= p < |Keys10| :: |Keys10[p]| == 10
    ensures forall p, q | 0 <= p < q < |Keys10| :: Keys10[p] != Keys10[q]
  {
  }

  /** Positions 0 to 3 of the length-10 list hold the keys spelled out for them. */
  lemma Keys10Placed0()
    ensures forall p | 0 <= p < 4 :: At10[p] < |Lines| && Lines[At10[p]].name == Keys10[p]
  {
  }

  /** Positions 4 to 7 of the length-10 list hold the keys spelled out for them. */
  lemma Keys10Placed1()
    ensures forall p | 4 <= p < 8 :: At10[p] < |Lines| && Lines[At10[p]].name == Keys10[p]
  {
  }

  /** Positions 8 to 11 of the length-10 list hold the keys spelled out for them. */
  lemma Keys10Placed2()
    ensures forall p | 8 <= p < 12 :: At10[p] < |Lines| && Lines[At10[p]].name == Keys10[p]
  {
  }

  /** Positions 12 to 15 of the length-10 list hold the keys spelled out for them. */
  lemma Keys10Placed3()
    ensures forall p | 12 <= p < 16 :: At10[p] < |Lines| && Lines[At10[p]].name == Keys10[p]
  {
  }

  /** Positions 16 to 19 of the length-10 list hold the keys spelled out for them. */
  lemma Keys10Placed4()
    ensures forall p | 16 <= p < 20 :: At10[p] < |Lines| && Lines[At10[p]].name == Keys10[p]
  {
  }

  /** Positions 20 to 23 of the length-10 list hold the keys spelled out for them. */
  lemma Keys10Placed5()
    ensures forall p | 20 <= p < 24 :: At10[p] < |Lines| && Lines[At10[p]].name == Keys10[p]
  {
  }

  /** Positions 24 to 25 of the length-10 list hold the keys spelled out for them. */
  lemma Keys10Placed6()
    ensures forall p | 24 <= p < 26 :: At10[p] < |Lines| && Lines[At10[p]].name == Keys10[p]
  {
  }

  lemma Bucket10()
    ensures 10 in ByLength && ListedAt(Lines, ByLength, 10) && ApartAt(Lines, ByLength, 10)
  {
    Keys10Apart();
    Keys10Placed0();
    Keys10Placed1();
    Keys10Placed2();
    Keys10Placed3();
    Keys10Placed4();
    Keys10Placed5();
    Keys10Placed6();
  }

  /** The keys with 11 characters are 24 different strings of that length. */
  lemma Keys11Apart()
    ensures |Keys11| == |At11|
    ensures forall p | 0 <= p < |Keys11| :: |Keys11[p]| == 11
    ensures forall p, q | 0 <= p < q < |Keys11| :: Keys11[p] != Keys11[q]
  {
  }

  /** Positions 0 to 3 of the length-11 list hold the keys spelled out for them. */
  lemma Keys11Placed0()
    ensures forall p | 0 <= p < 4 :: At11[p] < |Lines| && Lines[At11[p]].name == Keys11[p]
  {
  }

  /** Positions 4 to 7 of the length-11 list hold the keys spelled out for them. */
  lemma Keys11Placed1()
    ensures forall p | 4 <= p < 8 :: At11[p] < |Lines| && Lines[At11[p]].name == Keys11[p]
  {
  }

  /** Positions 8 to 11 of the length-11 list hold the keys spelled out for them. */
  lemma Keys11Placed2()
    ensures forall p | 8 <= p < 12 :: At11[p] < |Lines| && Lines[At11[p]].name == Keys11[p]
  {
  }

  /** Positions 12 to 15 of the length-11 list hold the keys spelled out for them. */
  lemma Keys11Placed3()
    ensures forall p | 12 <= p < 16 :: At11[p] < |Lines| && Lines[At11[p]].name == Keys11[p]
  {
  }

  /** Positions 16 to 19 of the length-11 list hold the keys spelled out for them. */
  lemma Keys11Placed4()
    ensures forall p | 16 <= p < 20 :: At11[p] < |Lines| && Lines[At11[p]].name == Keys11[p]
  {
  }

  /** Positions 20 to 23 of the length-11 list hold the keys spelled out for them. */
  lemma Keys11Placed5()
    ensures forall p | 20 <= p < 24 :: At11[p] < |Lines| && Lines[At11[p]].name == Keys11[p]
  {
  }

  lemma Bucket11()
    ensures 11 in ByLength && ListedAt(Lines, ByLength, 11) && ApartAt(Lines, ByLength, 11)
  {
    Keys11Apart();
    Keys11Placed0();
    Keys11Placed1();
    Keys11Placed2();
    Keys11Placed3();
    Keys11Placed4();
    Keys11Placed5();
  }

  /** The keys with 12 characters are 19 different strings of that length. */
  lemma Keys12Apart()
    ensures |Keys12| == |At12|
    ensures forall p | 0 <= p < |Keys12| :: |Keys12[p]| == 12
    ensures forall p, q | 0 <= p < q < |Keys12| :: Keys12[p] != Keys12[q]
  {
  }

  /** Positions 0 to 3 of the length-12 list hold the keys spelled out for them. */
  lemma Keys12Placed0()
    ensures forall p | 0 <= p < 4 :: At12[p] < |Lines| && Lines[At12[p]].name == Keys12[p]
  {
  }

  /** Positions 4 to 7 of the length-12 list hold the keys spelled out for them. */
  lemma Keys12Placed1()
    ensures forall p | 4 <= p < 8 :: At12[p] < |Lines| && Lines[At12[p]].name == Keys12[p]
  {
  }

  /** Positions 8 to 11 of the length-12 list hold the keys spelled out for them. */
  lemma Keys12Placed2()
    ensures forall p | 8 <= p < 12 :: At12[p] < |Lines| && Lines[At12[p]].name == Keys12[p]
  {
  }

  /** Positions 12 to 15 of the length-12 list hold the keys spelled out for them. */
  lemma Keys12Placed3()
    ensures forall p | 12 <= p < 16 :: At12[p] < |Lines| && Lines[At12[p]].name == Keys12[p]
  {
  }

  /** Positions 16 to 18 of the length-12 list hold the keys spelled out for them. */
  lemma Keys12Placed4()
    ensures forall p | 16 <= p < 19 :: At12[p] < |Lines| && Lines[At12[p]].name == Keys12[p]
  {
  }

  lemma Bucket12()
    ensures 12 in ByLength && ListedAt(Lines, ByLength, 12) && ApartAt(Lines, ByLength, 12)
  {
    Keys12Apart();
    Keys12Placed0();
    Keys12Placed1();
    Keys12Placed2();
    Keys12Placed3();
    Keys12Placed4();
  }

  /** The keys with 13 characters are 13 different strings of that length. */
  lemma Keys13Apart()
    ensures |Keys13| == |At13|
    ensures forall p | 0 <= p < |Keys13| :: |Keys13[p]| == 13
    ensures forall p, q | 0 <= p < q < |Keys13| :: Keys13[p] != Keys13[q]
  {
  }

  /** Positions 0 to 3 of the length-13 list hold the keys spelled out for them. */
  lemma Keys13Placed0()
    ensures forall p | 0 <= p < 4 :: At13[p] < |Lines| && Lines[At13[p]].name == Keys13[p]
  {
  }

  /** Positions 4 to 7 of the length-13 list hold the keys spelled out for them. */
  lemma Keys13Placed1()
    ensures forall p | 4 <= p < 8 :: At13[p] < |Lines| && Lines[At13[p]].name == Keys13[p]
  {
  }

  /** Positions 8 to 11 of the length-13 list hold the keys spelled out for them. */
  lemma Keys13Placed2()
    ensures forall p | 8 <= p < 12 :: At13[p] < |Lines| && Lines[At13[p]].name == Keys13[p]
  {
  }

  /** Positions 12 to 12 of the length-13 list hold the keys spelled out for them. */
  lemma Keys13Placed3()
    ensures forall p | 12 <= p < 13 :: At13[p] < |Lines| && Lines[At13[p]].name == Keys13[p]
  {
  }

  lemma Bucket13()
    ensures 13 in ByLength && ListedAt(Lines, ByLength, 13) && ApartAt(Lines, ByLength, 13)
  {
    Keys13Apart();
    Keys13Placed0();
    Keys13Placed1();
    Keys13Placed2();
    Keys13Placed3();
  }

  /** The keys with 14 characters are 13 different strings of that length. */
  lemma Keys14Apart()
    ensures |Keys14| == |At14|
    ensures forall p | 0 <= p < |Keys14| :: |Keys14[p]| == 14
    ensures forall p, q | 0 <= p < q < |Keys14| :: Keys14[p] != Keys14[q]
  {
  }

  /** Positions 0 to 3 of the length-14 list hold the keys spelled out for them. */
  lemma Keys14Placed0()
    ensures forall p | 0 <= p < 4 :: At14[p] < |Lines| && Lines[At14[p]].name == Keys14[p]
  {
  }

  /** Positions 4 to 7 of the length-14 list hold the keys spelled out for them. */
  lemma Keys14Placed1()
    ensures forall p | 4 <= p < 8 :: At14[p] < |Lines| && Lines[At14[p]].name == Keys14[p]
  {
  }

  /** Positions 8 to 11 of the length-14 list hold the keys spelled out for them. */
  lemma Keys14Placed2()
    ensures forall p | 8 <= p < 12 :: At14[p] < |Lines| && Lines[At14[p]].name == Keys14[p]
  {
  }

  /** Positions 12 to 12 of the length-14 list hold the keys spelled out for them. */
  lemma Keys14Placed3()
    ensures forall p | 12 <= p < 13 :: At14[p] < |Lines| && Lines[At14[p]].name == Keys14[p]
  {
  }

  lemma Bucket14()
    ensures 14 in ByLength && ListedAt(Lines, ByLength, 14) && ApartAt(Lines, ByLength, 14)
  {
    Keys14Apart();
    Keys14Placed0();
    Keys14Placed1();
    Keys14Placed2();
    Keys14Placed3();
  }

  /** The keys with 15 characters are 12 different strings of that length. */
  lemma Keys15Apart()
    ensures |Keys15| == |At15|
    ensures forall p | 0 <= p < |Keys15| :: |Keys15[p]| == 15
    ensures forall p, q | 0 <= p < q < |Keys15| :: Keys15[p] != Keys15[q]
  {
  }

  /** Positions 0 to 3 of the length-15 list hold the keys spelled out for them. */
  lemma Keys15Placed0()
    ensures forall p | 0 <= p < 4 :: At15[p] < |Lines| && Lines[At15[p]].name == Keys15[p]
  {
  }

  /** Positions 4 to 7 of the length-15 list hold the keys spelled out for them. */
  lemma Keys15Placed1()
    ensures forall p | 4 <= p < 8 :: At15[p] < |Lines| && Lines[At15[p]].name == Keys15[p]
  {
  }

  /** Positions 8 to 11 of the length-15 list hold the keys spelled out for them. */
  lemma Keys15Placed2()
    ensures forall p | 8 <= p < 12 :: At15[p] < |Lines| && Lines[At15[p]].name == Keys15[p]
  {
  }

  lemma Bucket15()
    ensures 15 in ByLength && ListedAt(Lines, ByLength, 15) && ApartAt(Lines, ByLength, 15)
  {
    Keys15Apart();
    Keys15Placed0();
    Keys15Placed1();
    Keys15Placed2();
  }

  /** The keys with 16 characters are 16 different strings of that length. */
  lemma Keys16Apart()
    ensures |Keys16| == |At16|
    ensures forall p | 0 <= p < |Keys16| :: |Keys16[p]| == 16
    ensures forall p, q | 0 <= p < q < |Keys16| :: Keys16[p] != Keys16[q]
  {
  }

  /** Positions 0 to 3 of the length-16 list hold the keys spelled out for them. */
  lemma Keys16Placed0()
    ensures forall p | 0 <= p < 4 :: At16[p] < |Lines| && Lines[At16[p]].name == Keys16[p]
  {
  }

  /** Positions 4 to 7 of the length-16 list hold the keys spelled out for them. */
  lemma Keys16Placed1()
    ensures forall p | 4 <= p < 8 :: At16[p] < |Lines| && Lines[At16[p]].name == Keys16[p]
  {
  }

  /** Positions 8 to 11 of the length-16 list hold the keys spelled out for them. */
  lemma Keys16Placed2()
    ensures forall p | 8 <= p < 12 :: At16[p] < |Lines| && Lines[At16[p]].name == Keys16[p]
  {
  }

  /** Positions 12 to 15 of the length-16 list hold the keys spelled out for them. */
  lemma Keys16Placed3()
    ensures forall p | 12 <= p < 16 :: At16[p] < |Lines| && Lines[At16[p]].name == Keys16[p]
  {
  }

  lemma Bucket16()
    ensures 16 in ByLength && ListedAt(Lines, ByLength, 16) && ApartAt(Lines, ByLength, 16)
  {
    Keys16Apart();
    Keys16Placed0();
    Keys16Placed1();
    Keys16Placed2();
    Keys16Placed3();
  }

  /** The keys with 17 characters are 12 different strings of that length. */
  lemma Keys17Apart()
    ensures |Keys17| == |At17|
    ensures forall p | 0 <= p < |Keys17| :: |Keys17[p]| == 17
    ensures forall p, q | 0 <= p < q < |Keys17| :: Keys17[p] != Keys17[q]
  {
  }

  /** Positions 0 to 3 of the length-17 list hold the keys spelled out for them. */
  lemma Keys17Placed0()
    ensures forall p | 0 <= p < 4 :: At17[p] < |Lines| && Lines[At17[p]].name == Keys17[p]
  {
  }

  /** Positions 4 to 7 of the length-17 list hold the keys spelled out for them. */
  lemma Keys17Placed1()
    ensures forall p | 4 <= p < 8 :: At17[p] < |Lines| && Lines[At17[p]].name == Keys17[p]
  {
  }

  /** Positions 8 to 11 of the length-17 list hold the keys spelled out for them. */
  lemma Keys17Placed2()
    ensures forall p | 8 <= p < 12 :: At17[p] < |Lines| && Lines[At17[p]].name == Keys17[p]
  {
  }

  lemma Bucket17()
    ensures 17 in ByLength && ListedAt(Lines, ByLength, 17) && ApartAt(Lines, ByLength, 17)
  {
    Keys17Apart();
    Keys17Placed0();
    Keys17Placed1();
    Keys17Placed2();
  }

  /** The keys with 18 characters are 6 different strings of that length. */
  lemma Keys18Apart()
    ensures |Keys18| == |At18|
    ensures forall p | 0 <= p < |Keys18| :: |Keys18[p]| == 18
    ensures forall p, q | 0 <= p < q < |Keys18| :: Keys18[p] != Keys18[q]
  {
  }

  /** Positions 0 to 3 of the length-18 list hold the keys spelled out for them. */
  lemma Keys18Placed0()
    ensures forall p | 0 <= p < 4 :: At18[p] < |Lines| && Lines[At18[p]].name == Keys18[p]
  {
  }

  /** Positions 4 to 5 of the length-18 list hold the keys spelled out for them. */
  lemma Keys18Placed1()
    ensures forall p | 4 <= p < 6 :: At18[p] < |Lines| && Lines[At18[p]].name == Keys18[p]
  {
  }

  lemma Bucket18()
    ensures 18 in ByLength && ListedAt(Lines, ByLength, 18) && ApartAt(Lines, ByLength, 18)
  {
    Keys18Apart();
    Keys18Placed0();
    Keys18Placed1();
  }

  /** The keys with 19 characters are 6 different strings of that length. */
  lemma Keys19Apart()
    ensures |Keys19| == |At19|
    ensures forall p | 0 <= p < |Keys19| :: |Keys19[p]| == 19
    ensures forall p, q | 0 <= p < q < |Keys19| :: Keys19[p] != Keys19[q]
  {
  }

  /** Positions 0 to 3 of the length-19 list hold the keys spelled out for them. */
  lemma Keys19Placed0()
    ensures forall p | 0 <= p < 4 :: At19[p] < |Lines| && Lines[At19[p]].name == Keys19[p]
  {
  }

  /** Positions 4 to 5 of the length-19 list hold the keys spelled out for them. */
  lemma Keys19Placed1()
    ensures forall p | 4 <= p < 6 :: At19[p] < |Lines| && Lines[At19[p]].name == Keys19[p]
  {
  }

  lemma Bucket19()
    ensures 19 in ByLength && ListedAt(Lines, ByLength, 19) && ApartAt(Lines, ByLength, 19)
  {
    Keys19Apart();
    Keys19Placed0();
    Keys19Placed1();
  }

  /** The keys with 20 characters are 5 different strings of that length. */
  lemma Keys20Apart()
    ensures |Keys20| == |At20|
    ensures forall p | 0 <= p < |Keys20| :: |Keys20[p]| == 20
    ensures forall p, q | 0 <= p < q < |Keys20| :: Keys20[p] != Keys20[q]
  {
  }

  /** Positions 0 to 3 of the length-20 list hold the keys spelled out for them. */
  lemma Keys20Placed0()
    ensures forall p | 0 <= p < 4 :: At20[p] < |Lines| && Lines[At20[p]].name == Keys20[p]
  {
  }

  /** Positions 4 to 4 of the length-20 list hold the keys spelled out for them. */
  lemma Keys20Placed1()
    ensures forall p | 4 <= p < 5 :: At20[p] < |Lines| && Lines[At20[p]].name == Keys20[p]
  {
  }

  lemma Bucket20()
    ensures 20 in ByLength && ListedAt(Lines, ByLength, 20) && ApartAt(Lines, ByLength, 20)
  {
    Keys20Apart();
    Keys20Placed0();
    Keys20Placed1();
  }

  /** The keys with 21 characters are 6 different strings of that length. */
  lemma Keys21Apart()
    ensures |Keys21| == |At21|
    ensures forall p | 0 <= p < |Keys21| :: |Keys21[p]| == 21
    ensures forall p, q | 0 <= p < q < |Keys21| :: Keys21[p] != Keys21[q]
  {
  }

  /** Positions 0 to 3 of the length-21 list hold the keys spelled out for them. */
  lemma Keys21Placed0()
    ensures forall p | 0 <= p < 4 :: At21[p] < |Lines| && Lines[At21[p]].name == Keys21[p]
  {
  }

  /** Positions 4 to 5 of the length-21 list hold the keys spelled out for them. */
  lemma Keys21Placed1()
    ensures forall p | 4 <= p < 6 :: At21[p] < |Lines| && Lines[At21[p]].name == Keys21[p]
  {
  }

  lemma Bucket21()
    ensures 21 in ByLength && ListedAt(Lines, ByLength, 21) && ApartAt(Lines, ByLength, 21)
  {
    Keys21Apart();
    Keys21Placed0();
    Keys21Placed1();
  }

  /** The keys with 22 characters are 7 different strings of that length. */
  lemma Keys22Apart()
    ensures |Keys22| == |At22|
    ensures forall p | 0 <= p < |Keys22| :: |Keys22[p]| == 22
    ensures forall p, q | 0 <= p < q < |Keys22| :: Keys22[p] != Keys22[q]
  {
  }

  /** Positions 0 to 3 of the length-22 list hold the keys spelled out for them. */
  lemma Keys22Placed0()
    ensures forall p | 0 <= p < 4 :: At22[p] < |Lines| && Lines[At22[p]].name == Keys22[p]
  {
  }

  /** Positions 4 to 6 of the length-22 list hold the keys spelled out for them. */
  lemma Keys22Placed1()
    ensures forall p | 4 <= p < 7 :: At22[p] < |Lines| && Lines[At22[p]].name == Keys22[p]
  {
  }

  lemma Bucket22()
    ensures 22 in ByLength && ListedAt(Lines, ByLength, 22) && ApartAt(Lines, ByLength, 22)
  {
    Keys22Apart();
    Keys22Placed0();
    Keys22Placed1();
  }

  /** The keys with 23 characters are 4 different strings of that length. */
  lemma Keys23Apart()
    ensures |Keys23| == |At23|
    ensures forall p | 0 <= p < |Keys23| :: |Keys23[p]| == 23
    ensures forall p, q | 0 <= p < q < |Keys23| :: Keys23[p] != Keys23[q]
  {
  }

  /** Positions 0 to 3 of the length-23 list hold the keys spelled out for them. */
  lemma Keys23Placed0()
    ensures forall p | 0 <= p < 4 :: At23[p] < |Lines| && Lines[At23[p]].name == Keys23[p]
  {
  }

  lemma Bucket23()
    ensures 23 in ByLength && ListedAt(Lines, ByLength, 23) && ApartAt(Lines, ByLength, 23)
  {
    Keys23Apart();
    Keys23Placed0();
  }

  /** The keys with 24 characters are 2 different strings of that length. */
  lemma Keys24Apart()
    ensures |Keys24| == |At24|
    ensures forall p | 0 <= p < |Keys24| :: |Keys24[p]| == 24
    ensures forall p, q | 0 <= p < q < |Keys24| :: Keys24[p] != Keys24[q]
  {
  }

  /** Positions 0 to 1 of the length-24 list hold the keys spelled out for them. */
  lemma Keys24Placed0()
    ensures forall p | 0 <= p < 2 :: At24[p] < |Lines| && Lines[At24[p]].name == Keys24[p]
  {
  }

  lemma Bucket24()
    ensures 24 in ByLength && ListedAt(Lines, ByLength, 24) && ApartAt(Lines, ByLength, 24)
  {
    Keys24Apart();
    Keys24Placed0();
  }

  /** The keys with 25 characters are 5 different strings of that length. */
  lemma Keys25Apart()
    ensures |Keys25| == |At25|
    ensures forall p | 0 <= p < |Keys25| :: |Keys25[p]| == 25
    ensures forall p, q | 0 <= p < q < |Keys25| :: Keys25[p] != Keys25[q]
  {
  }

  /** Positions 0 to 3 of the length-25 list hold the keys spelled out for them. */
  lemma Keys25Placed0()
    ensures forall p | 0 <= p < 4 :: At25[p] < |Lines| && Lines[At25[p]].name == Keys25[p]
  {
  }

  /** Positions 4 to 4 of the length-25 list hold the keys spelled out for them. */
  lemma Keys25Placed1()
    ensures forall p | 4 <= p < 5 :: At25[p] < |Lines| && Lines[At25[p]].name == Keys25[p]
  {
  }

  lemma Bucket25()
    ensures 25 in ByLength && ListedAt(Lines, ByLength, 25) && ApartAt(Lines, ByLength, 25)
  {
    Keys25Apart();
    Keys25Placed0();
    Keys25Placed1();
  }

  /** The keys with 27 characters are 2 different strings of that length. */
  lemma Keys27Apart()
    ensures |Keys27| == |At27|
    ensures forall p | 0 <= p < |Keys27| :: |Keys27[p]| == 27
    ensures forall p, q | 0 <= p < q < |Keys27| :: Keys27[p] != Keys27[q]
  {
  }

  /** Positions 0 to 1 of the length-27 list hold the keys spelled out for them. */
  lemma Keys27Placed0()
    ensures forall p | 0 <= p < 2 :: At27[p] < |Lines| && Lines[At27[p]].name == Keys27[p]
  {
  }

  lemma Bucket27()
    ensures 27 in ByLength && ListedAt(Lines, ByLength, 27) && ApartAt(Lines, ByLength, 27)
  {
    Keys27Apart();
    Keys27Placed0();
  }

  /** The one key with 28 characters. */
  lemma Keys28Apart()
    ensures |Keys28| == |At28|
    ensures forall p | 0 <= p < |Keys28| :: |Keys28[p]| == 28
  {
  }

  /** Positions 0 to 0 of the length-28 list hold the keys spelled out for them. */
  lemma Keys28Placed0()
    ensures forall p | 0 <= p < 1 :: At28[p] < |Lines| && Lines[At28[p]].name == Keys28[p]
  {
  }

  lemma Bucket28()
    ensures 28 in ByLength && ListedAt(Lines, ByLength, 28) && ApartAt(Lines, ByLength, 28)
  {
    Keys28Apart();
    Keys28Placed0();
  }

  /** The one key with 30 characters. */
  lemma Keys30Apart()
    ensures |Keys30| == |At30|
    ensures forall p | 0 <= p < |Keys30| :: |Keys30[p]| == 30
  {
  }

  /** Positions 0 to 0 of the length-30 list hold the keys spelled out for them. */
  lemma Keys30Placed0()
    ensures forall p | 0 <= p < 1 :: At30[p] < |Lines| && Lines[At30[p]].name == Keys30[p]
  {
  }

  lemma Bucket30()
    ensures 30 in ByLength && ListedAt(Lines, ByLength, 30) && ApartAt(Lines, ByLength, 30)
  {
    Keys30Apart();
    Keys30Placed0();
  }

  /** The one key with 37 characters. */
  lemma Keys37Apart()
    ensures |Keys37| == |At37|
    ensures forall p | 0 <= p < |Keys37| :: |Keys37[p]| == 37
  {
  }

  /** Positions 0 to 0 of the length-37 list hold the keys spelled out for them. */
  lemma Keys37Placed0()
    ensures forall p | 0 <= p < 1 :: At37[p] < |Lines| && Lines[At37[p]].name == Keys37[p]
  {
  }

  lemma Bucket37()
    ensures 37 in ByLength && ListedAt(Lines, ByLength, 37) && ApartAt(Lines, ByLength, 37)
  {
    Keys37Apart();
    Keys37Placed0();
  }

  /** The one key with 38 characters. */
  lemma Keys38Apart()
    ensures |Keys38| == |At38|
    ensures forall p | 0 <= p < |Keys38| :: |Keys38[p]| == 38
  {
  }

  /** Positions 0 to 0 of the length-38 list hold the keys spelled out for them. */
  lemma Keys38Placed0()
    ensures forall p | 0 <= p < 1 :: At38[p] < |Lines| && Lines[At38[p]].name == Keys38[p]
  {
  }

  lemma Bucket38()
    ensures 38 in ByLength && ListedAt(Lines, ByLength, 38) && ApartAt(Lines, ByLength, 38)
  {
    Keys38Apart();
    Keys38Placed0();
  }

  /** Every length the index lists passes the checks above. */
  lemma BucketAt(L: nat)
    requires L in ByLength
    ensures ListedAt(Lines, ByLength, L) && ApartAt(Lines, ByLength, L)
  {
    if L == 7 {
      Bucket7();
    } else if L == 8 {
      Bucket8();
    } else if L == 9 {
      Bucket9();
    } else if L == 10 {
      Bucket10();
    } else if L == 11 {
      Bucket11();
    } else if L == 12 {
      Bucket12();
    } else if L == 13 {
      Bucket13();
    } else if L == 14 {
      Bucket14();
    } else if L == 15 {
      Bucket15();
    } else if L == 16 {
      Bucket16();
    } else if L == 17 {
      Bucket17();
    } else if L == 18 {
      Bucket18();
    } else if L == 19 {
      Bucket19();
    } else if L == 20 {
      Bucket20();
    } else if L == 21 {
      Bucket21();
    } else if L == 22 {
      Bucket22();
    } else if L == 23 {
      Bucket23();
    } else if L == 24 {
      Bucket24();
    } else if L == 25 {
      Bucket25();
    } else if L == 27 {
      Bucket27();
    } else if L == 28 {
      Bucket28();
    } else if L == 30 {
      Bucket30();
    } else if L == 37 {
      Bucket37();
    } else {
      Bucket38();
    }
  }

  /** The index lists 0 positions under the lengths below 4. */
  lemma CountBelow4()
    ensures Count(ByLength, 4) == 0
  {
    assert Count(ByLength, 1) == 0;
    assert Count(ByLength, 2) == 0;
    assert Count(ByLength, 3) == 0;
  }

  /** The index lists 1 positions under the lengths below 8. */
  lemma CountBelow8()
    ensures Count(ByLength, 8) == 1
  {
    CountBelow4();
    assert Count(ByLength, 5) == 0;
    assert Count(ByLength, 6) == 0;
    assert Count(ByLength, 7) == 0;
  }

  /** The index lists 84 positions under the lengths below 12. */
  lemma CountBelow12()
    ensures Count(ByLength, 12) == 84
  {
    CountBelow8();
    assert Count(ByLength, 9) == 10;
    assert Count(ByLength, 10) == 34;
    assert Count(ByLength, 11) == 60;
  }

  /** The index lists 141 positions under the lengths below 16. */
  lemma CountBelow16()
    ensures Count(ByLength, 16) == 141
  {
    CountBelow12();
    assert Count(ByLength, 13) == 103;
    assert Count(ByLength, 14) == 116;
    assert Count(ByLength, 15) == 129;
  }

  /** The index lists 181 positions under the lengths below 20. */
  lemma CountBelow20()
    ensures Count(ByLength, 20) == 181
  {
    CountBelow16();
    assert Count(ByLength, 17) == 157;
    assert Count(ByLength, 18) == 169;
    assert Count(ByLength, 19) == 175;
  }

  /** The index lists 203 positions under the lengths below 24. */
  lemma CountBelow24()
    ensures Count(ByLength, 24) == 203
  {
    CountBelow20();
    assert Count(ByLength, 21) == 186;
    assert Count(ByLength, 22) == 192;
    assert Count(ByLength, 23) == 199;
  }

  /** The index lists 212 positions under the lengths below 28. */
  lemma CountBelow28()
    ensures Count(ByLength, 28) == 212
  {
    CountBelow24();
    assert Count(ByLength, 25) == 205;
    assert Count(ByLength, 26) == 210;
    assert Count(ByLength, 27) == 210;
  }

  /** The index lists 214 positions under the lengths below 32. */
  lemma CountBelow32()
    ensures Count(ByLength, 32) == 214
  {
    CountBelow28();
    assert Count(ByLength, 29) == 213;
    assert Count(ByLength, 30) == 213;
    assert Count(ByLength, 31) == 214;
  }

  /** The index lists 214 positions under the lengths below 36. */
  lemma CountBelow36()
    ensures Count(ByLength, 36) == 214
  {
    CountBelow32();
    assert Count(ByLength, 33) == 214;
    assert Count(ByLength, 34) == 214;
    assert Count(ByLength, 35) == 214;
  }

  /** The index lists 216 positions under the lengths below 39. */
  lemma CountBelow39()
    ensures Count(ByLength, 39) == 216
  {
    CountBelow36();
    assert Count(ByLength, 37) == 214;
    assert Count(ByLength, 38) == 215;
  }

  /** The index lists every line of the registry literal exactly once. */
  lemma ByLengthIndexesLines()
    ensures Indexes(Lines, ByLength, KeyLengthBound)
  {
    forall L | L in ByLength
      ensures ListedAt(Lines, ByLength, L) && ApartAt(Lines, ByLength, L)
    {
      BucketAt(L);
    }
    CountBelow39();
    LineCount();
  }

  /** Every line is listed under the length of its key. */
  lemma ListedAll()
    ensures forall i | 0 <= i < |Lines| :: |Lines[i].name| in ByLength && i in ByLength[|Lines[i].name|]
  {
    ByLengthIndexesLines();
    IndexedLines(Lines, ByLength, KeyLengthBound);
  }

  /** A key with 10 characters is one of the keys spelled out for that length. */
  lemma Keys10Cover()
    ensures forall i | 0 <= i < |Lines| && |Lines[i].name| == 10 :: Lines[i].name in Keys10
  {
    Keys10Apart();
    Keys10Placed0();
    Keys10Placed1();
    Keys10Placed2();
    Keys10Placed3();
    Keys10Placed4();
    Keys10Placed5();
    Keys10Placed6();
    ListedAll();
    assert 10 in ByLength && ByLength[10] == At10;
    CoveredBy(Lines, ByLength, 10, Keys10);
  }

  /** A key with 11 characters is one of the keys spelled out for that length. */
  lemma Keys11Cover()
    ensures forall i | 0 <= i < |Lines| && |Lines[i].name| == 11 :: Lines[i].name in Keys11
  {
    Keys11Apart();
    Keys11Placed0();
    Keys11Placed1();
    Keys11Placed2();
    Keys11Placed3();
    Keys11Placed4();
    Keys11Placed5();
    ListedAll();
    assert 11 in ByLength && ByLength[11] == At11;
    CoveredBy(Lines, ByLength, 11, Keys11);
  }

  /** A key with 12 characters is one of the keys spelled out for that length. */
  lemma Keys12Cover()
    ensures forall i | 0 <= i < |Lines| && |Lines[i].name| == 12 :: Lines[i].name in Keys12
  {
    Keys12Apart();
    Keys12Placed0();
    Keys12Placed1();
    Keys12Placed2();
    Keys12Placed3();
    Keys12Placed4();
    ListedAll();
    assert 12 in ByLength && ByLength[12] == At12;
    CoveredBy(Lines, ByLength, 12, Keys12);
  }

  /** A key with 13 characters is one of the keys spelled out for that length. */
  lemma Keys13Cover()
    ensures forall i | 0 <= i < |Lines| && |Lines[i].name| == 13 :: Lines[i].name in Keys13
  {
    Keys13Apart();
    Keys13Placed0();
    Keys13Placed1();
    Keys13Placed2();
    Keys13Placed3();
    ListedAll();
    assert 13 in ByLength && ByLength[13] == At13;
    CoveredBy(Lines, ByLength, 13, Keys13);
  }

  /** A key with 16 characters is one of the keys spelled out for that length. */
  lemma Keys16Cover()
    ensures forall i | 0 <= i < |Lines| && |Lines[i].name| == 16 :: Lines[i].name in Keys16
  {
    Keys16Apart();
    Keys16Placed0();
    Keys16Placed1();
    Keys16Placed2();
    Keys16Placed3();
    ListedAll();
    assert 16 in ByLength && ByLength[16] == At16;
    CoveredBy(Lines, ByLength, 16, Keys16);
  }

}
