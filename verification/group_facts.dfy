/**
 * What each group of the registry literal is made of, checked block by block
 * and put together with small lemmas about concatenation:
 *
 *  - the structural group holds the `prim` handlers, under `prim::` keys and
 *    the two `aten::` keys `__getitem__` and `len`;
 *  - the tensor group holds tensor handlers under `aten::` keys;
 *  - the quantized group holds quantization handlers under `quantized::` or
 *    `aten::` keys;
 *  - the non-tracking group holds the two generic handlers under `aten::` keys;
 *  - every in-place key (one ending in `_`) whose base key is registered at
 *    all comes right after its base key's line, with the same converter; six
 *    in-place keys have no base key.
 */
module GroupFacts {
  import opened DictLiteral
  import opened Converters
  import opened Registry

  /** The in-place keys whose base key is not registered. */
  const Orphans: set<string> :=
    {"aten::__getitem__", "aten::copy_", "aten::__and__", "aten::__or__", "aten::fill_", "aten::scatter_"}

  /** A line of the structural group. */
  predicate StructuralLine(e: Line)
  {
    e.value.Prim? && (HasPrefix(e.name, "prim::") || e.name == "aten::__getitem__" || e.name == "aten::len")
  }

  /** A line of the tensor group. */
  predicate TensorLine(e: Line)
  {
    e.value.ATen? && HasPrefix(e.name, "aten::")
  }

  /** A line of the quantized group. */
  predicate QuantizedLine(e: Line)
  {
    e.value.Quantized? && (HasPrefix(e.name, "quantized::") || HasPrefix(e.name, "aten::"))
  }

  /** A line of the non-tracking group. */
  predicate NonTrackingLine(e: Line)
  {
    (e.value == TrackConstantOperator || e.value == NoTrackOperator) && HasPrefix(e.name, "aten::")
  }

  predicate AllStructural(lines: seq<Line>)
  {
    forall i | 0 <= i < |lines| :: StructuralLine(lines[i])
  }

  predicate AllTensor(lines: seq<Line>)
  {
    forall i | 0 <= i < |lines| :: TensorLine(lines[i])
  }

  predicate AllQuantized(lines: seq<Line>)
  {
    forall i | 0 <= i < |lines| :: QuantizedLine(lines[i])
  }

  predicate AllNonTracking(lines: seq<Line>)
  {
    forall i | 0 <= i < |lines| :: NonTrackingLine(lines[i])
  }

  /**
   * Every in-place key other than the orphans comes right after the line of
   * its base key, which has the same converter.
   */
  predicate FollowsBase(lines: seq<Line>)
  {
    forall i | 0 <= i < |lines| && IsInPlace(lines[i].name) ::
      lines[i].name in Orphans || (0 < i && lines[i - 1] == Entry(Base(lines[i].name), lines[i].value))
  }

  /** No two lines have the same converter. */
  predicate DistinctValues(lines: seq<Line>)
  {
    forall i, j | 0 <= i < j < |lines| :: lines[i].value != lines[j].value
  }

  lemma TensorConcat(a: seq<Line>, b: seq<Line>)
    requires AllTensor(a) && AllTensor(b)
    ensures AllTensor(a + b)
  {
    forall i | 0 <= i < |a + b|
      ensures TensorLine((a + b)[i])
    {
      if i < |a| {
        assert (a + b)[i] == a[i];
      } else {
        assert (a + b)[i] == b[i - |a|];
      }
    }
  }

  lemma QuantizedConcat(a: seq<Line>, b: seq<Line>)
    requires AllQuantized(a) && AllQuantized(b)
    ensures AllQuantized(a + b)
  {
    forall i | 0 <= i < |a + b|
      ensures QuantizedLine((a + b)[i])
    {
      if i < |a| {
        assert (a + b)[i] == a[i];
      } else {
        assert (a + b)[i] == b[i - |a|];
      }
    }
  }

  lemma FollowsBaseConcat(a: seq<Line>, b: seq<Line>)
    requires FollowsBase(a) && FollowsBase(b)
    ensures FollowsBase(a + b)
  {
    var ab := a + b;
    forall i | 0 <= i < |ab| && IsInPlace(ab[i].name)
      ensures ab[i].name in Orphans || (0 < i && ab[i - 1] == Entry(Base(ab[i].name), ab[i].value))
    {
      if i < |a| {
        assert ab[i] == a[i];
        if 0 < i {
          assert ab[i - 1] == a[i - 1];
        }
      } else {
        var k := i - |a|;
        assert ab[i] == b[k];
        if 0 < k {
          assert ab[i - 1] == b[k - 1];
        }
      }
    }
  }

  /** Two lists of lines, each without a repeated converter, that share no converter. */
  lemma DistinctValuesConcat(a: seq<Line>, b: seq<Line>)
    requires DistinctValues(a) && DistinctValues(b)
    requires forall i, j | 0 <= i < |a| && 0 <= j < |b| :: a[i].value != b[j].value
    ensures DistinctValues(a + b)
  {
    var ab := a + b;
    forall i, j | 0 <= i < j < |ab|
      ensures ab[i].value != ab[j].value
    {
      if j < |a| {
        assert ab[i] == a[i] && ab[j] == a[j];
      } else if i >= |a| {
        assert ab[i] == b[i - |a|] && ab[j] == b[j - |a|];
      } else {
        assert ab[i] == a[i] && ab[j] == b[j - |a|];
      }
    }
  }

  lemma PrimGroupShape0()
    ensures forall i | 0 <= i < 6 :: StructuralLine(PrimGroup[i])
  {
  }

  lemma PrimGroupShape1()
    ensures forall i | 6 <= i < 11 :: StructuralLine(PrimGroup[i])
  {
  }

  /** The lines 10-20 belong to their group. */
  lemma PrimGroupShape()
    ensures AllStructural(PrimGroup)
  {
    PrimGroupShape0();
    PrimGroupShape1();
  }

  lemma PrimGroupInPlaceLines0()
    ensures forall i | 0 <= i < 11 && IsInPlace(PrimGroup[i].name) :: i in {9}
  {
  }

  lemma PrimGroupInPlaceEntries0()
    ensures PrimGroup[9].name == "aten::__getitem__"
  {
  }

  lemma PrimGroupFollows0()
    ensures PrimGroup[9].name in Orphans
  {
    PrimGroupInPlaceEntries0();
    assert "aten::__getitem__" in Orphans;
  }

  lemma PrimGroupAliases0()
    ensures forall i | 0 <= i < 11 && IsInPlace(PrimGroup[i].name) ::
              PrimGroup[i].name in Orphans || (0 < i && PrimGroup[i - 1] == Entry(Base(PrimGroup[i].name), PrimGroup[i].value))
  {
    PrimGroupInPlaceLines0();
    PrimGroupFollows0();
  }

  /** The in-place keys of lines 10-20 follow their base keys. */
  lemma PrimGroupAliases()
    ensures FollowsBase(PrimGroup)
  {
    PrimGroupAliases0();
  }

  lemma ATenGroupAShape0()
    ensures forall i | 0 <= i < 8 :: TensorLine(ATenGroupA[i])
  {
  }

  lemma ATenGroupAShape1()
    ensures forall i | 8 <= i < 16 :: TensorLine(ATenGroupA[i])
  {
  }

  lemma ATenGroupAShape2()
    ensures forall i | 16 <= i < 24 :: TensorLine(ATenGroupA[i])
  {
  }

  /** The lines 22-45 belong to their group. */
  lemma ATenGroupAShape()
    ensures AllTensor(ATenGroupA)
  {
    ATenGroupAShape0();
    ATenGroupAShape1();
    ATenGroupAShape2();
  }

  lemma ATenGroupAInPlaceLines0()
    ensures forall i | 0 <= i < 12 && IsInPlace(ATenGroupA[i].name) :: i in {5, 7, 10}
  {
  }

  lemma ATenGroupAInPlaceEntries0a()
    ensures ATenGroupA[4] == Entry("aten::relu", ATen(ATenReluOperator))
    ensures ATenGroupA[5] == Entry("aten::relu_", ATen(ATenReluOperator))
    ensures ATenGroupA[6] == Entry("aten::relu6", ATen(ATenRelu6Operator))
    ensures ATenGroupA[7] == Entry("aten::relu6_", ATen(ATenRelu6Operator))
  {
  }

  lemma ATenGroupAFollows0a()
    ensures ATenGroupA[4] == Entry(Base(ATenGroupA[5].name), ATenGroupA[5].value)
    ensures ATenGroupA[6] == Entry(Base(ATenGroupA[7].name), ATenGroupA[7].value)
  {
    ATenGroupAInPlaceEntries0a();
    assert Base("aten::relu_") == "aten::relu";
    assert Base("aten::relu6_") == "aten::relu6";
  }

  lemma ATenGroupAInPlaceEntries0b()
    ensures ATenGroupA[9] == Entry("aten::leaky_relu", ATen(ATenLeakyReluOperator))
    ensures ATenGroupA[10] == Entry("aten::leaky_relu_", ATen(ATenLeakyReluOperator))
  {
  }

  lemma ATenGroupAFollows0b()
    ensures ATenGroupA[9] == Entry(Base(ATenGroupA[10].name), ATenGroupA[10].value)
  {
    ATenGroupAInPlaceEntries0b();
    assert Base("aten::leaky_relu_") == "aten::leaky_relu";
  }

  lemma ATenGroupAAliases0()
    ensures forall i | 0 <= i < 12 && IsInPlace(ATenGroupA[i].name) ::
              ATenGroupA[i].name in Orphans || (0 < i && ATenGroupA[i - 1] == Entry(Base(ATenGroupA[i].name), ATenGroupA[i].value))
  {
    ATenGroupAInPlaceLines0();
    ATenGroupAFollows0a();
    ATenGroupAFollows0b();
  }

  lemma ATenGroupAInPlaceLines1()
    ensures forall i | 12 <= i < 24 && IsInPlace(ATenGroupA[i].name) :: i in {12}
  {
  }

  lemma ATenGroupAInPlaceEntries1()
    ensures ATenGroupA[11] == Entry("aten::elu", ATen(ATenEluOperator))
    ensures ATenGroupA[12] == Entry("aten::elu_", ATen(ATenEluOperator))
  {
  }

  lemma ATenGroupAFollows1()
    ensures ATenGroupA[11] == Entry(Base(ATenGroupA[12].name), ATenGroupA[12].value)
  {
    ATenGroupAInPlaceEntries1();
    assert Base("aten::elu_") == "aten::elu";
  }

  lemma ATenGroupAAliases1()
    ensures forall i | 12 <= i < 24 && IsInPlace(ATenGroupA[i].name) ::
              ATenGroupA[i].name in Orphans || (0 < i && ATenGroupA[i - 1] == Entry(Base(ATenGroupA[i].name), ATenGroupA[i].value))
  {
    ATenGroupAInPlaceLines1();
    ATenGroupAFollows1();
  }

  /** The in-place keys of lines 22-45 follow their base keys. */
  lemma ATenGroupAAliases()
    ensures FollowsBase(ATenGroupA)
  {
    ATenGroupAAliases0();
    ATenGroupAAliases1();
  }

  lemma ATenGroupBShape0()
    ensures forall i | 0 <= i < 8 :: TensorLine(ATenGroupB[i])
  {
  }

  lemma ATenGroupBShape1()
    ensures forall i | 8 <= i < 16 :: TensorLine(ATenGroupB[i])
  {
  }

  lemma ATenGroupBShape2()
    ensures forall i | 16 <= i < 24 :: TensorLine(ATenGroupB[i])
  {
  }

  /** The lines 46-69 belong to their group. */
  lemma ATenGroupBShape()
    ensures AllTensor(ATenGroupB)
  {
    ATenGroupBShape0();
    ATenGroupBShape1();
    ATenGroupBShape2();
  }

  lemma ATenGroupBInPlaceLines0()
    ensures forall i | 0 <= i < 12 && IsInPlace(ATenGroupB[i].name) :: i in {1, 3, 9}
  {
  }

  lemma ATenGroupBInPlaceEntries0a()
    ensures ATenGroupB[0] == Entry("aten::dropout", ATen(ATenDropoutOperator))
    ensures ATenGroupB[1] == Entry("aten::dropout_", ATen(ATenDropoutOperator))
    ensures ATenGroupB[2] == Entry("aten::feature_dropout", ATen(ATenFeatureDropoutOperator))
    ensures ATenGroupB[3] == Entry("aten::feature_dropout_", ATen(ATenFeatureDropoutOperator))
  {
  }

  lemma ATenGroupBFollows0a()
    ensures ATenGroupB[0] == Entry(Base(ATenGroupB[1].name), ATenGroupB[1].value)
    ensures ATenGroupB[2] == Entry(Base(ATenGroupB[3].name), ATenGroupB[3].value)
  {
    ATenGroupBInPlaceEntries0a();
    assert Base("aten::dropout_") == "aten::dropout";
    assert Base("aten::feature_dropout_") == "aten::feature_dropout";
  }

  lemma ATenGroupBInPlaceEntries0b()
    ensures ATenGroupB[8] == Entry("aten::tanh", ATen(ATenTanhOperator))
    ensures ATenGroupB[9] == Entry("aten::tanh_", ATen(ATenTanhOperator))
  {
  }

  lemma ATenGroupBFollows0b()
    ensures ATenGroupB[8] == Entry(Base(ATenGroupB[9].name), ATenGroupB[9].value)
  {
    ATenGroupBInPlaceEntries0b();
    assert Base("aten::tanh_") == "aten::tanh";
  }

  lemma ATenGroupBAliases0()
    ensures forall i | 0 <= i < 12 && IsInPlace(ATenGroupB[i].name) ::
              ATenGroupB[i].name in Orphans || (0 < i && ATenGroupB[i - 1] == Entry(Base(ATenGroupB[i].name), ATenGroupB[i].value))
  {
    ATenGroupBInPlaceLines0();
    ATenGroupBFollows0a();
    ATenGroupBFollows0b();
  }

  lemma ATenGroupBInPlaceLines1()
    ensures forall i | 12 <= i < 24 && IsInPlace(ATenGroupB[i].name) :: i in {13, 15, 17, 19, 21, 23}
  {
  }

  lemma ATenGroupBInPlaceEntries1a()
    ensures ATenGroupB[12] == Entry("aten::sigmoid", ATen(ATenSigmoidOperator))
    ensures ATenGroupB[13] == Entry("aten::sigmoid_", ATen(ATenSigmoidOperator))
    ensures ATenGroupB[14] == Entry("aten::add", ATen(ATenAddOperator))
    ensures ATenGroupB[15] == Entry("aten::add_", ATen(ATenAddOperator))
  {
  }

  lemma ATenGroupBFollows1a()
    ensures ATenGroupB[12] == Entry(Base(ATenGroupB[13].name), ATenGroupB[13].value)
    ensures ATenGroupB[14] == Entry(Base(ATenGroupB[15].name), ATenGroupB[15].value)
  {
    ATenGroupBInPlaceEntries1a();
    assert Base("aten::sigmoid_") == "aten::sigmoid";
    assert Base("aten::add_") == "aten::add";
  }

  lemma ATenGroupBInPlaceEntries1b()
    ensures ATenGroupB[16] == Entry("aten::sub", ATen(ATenSubOperator))
    ensures ATenGroupB[17] == Entry("aten::sub_", ATen(ATenSubOperator))
    ensures ATenGroupB[18] == Entry("aten::mul", ATen(ATenMulOperator))
    ensures ATenGroupB[19] == Entry("aten::mul_", ATen(ATenMulOperator))
  {
  }

  lemma ATenGroupBFollows1b()
    ensures ATenGroupB[16] == Entry(Base(ATenGroupB[17].name), ATenGroupB[17].value)
    ensures ATenGroupB[18] == Entry(Base(ATenGroupB[19].name), ATenGroupB[19].value)
  {
    ATenGroupBInPlaceEntries1b();
    assert Base("aten::sub_") == "aten::sub";
    assert Base("aten::mul_") == "aten::mul";
  }

  lemma ATenGroupBInPlaceEntries1c()
    ensures ATenGroupB[20] == Entry("aten::div", ATen(ATenDivOperator))
    ensures ATenGroupB[21] == Entry("aten::div_", ATen(ATenDivOperator))
    ensures ATenGroupB[22] == Entry("aten::reciprocal", ATen(ATenReciprocalOperator))
    ensures ATenGroupB[23] == Entry("aten::reciprocal_", ATen(ATenReciprocalOperator))
  {
  }

  lemma ATenGroupBFollows1c()
    ensures ATenGroupB[20] == Entry(Base(ATenGroupB[21].name), ATenGroupB[21].value)
    ensures ATenGroupB[22] == Entry(Base(ATenGroupB[23].name), ATenGroupB[23].value)
  {
    ATenGroupBInPlaceEntries1c();
    assert Base("aten::div_") == "aten::div";
    assert Base("aten::reciprocal_") == "aten::reciprocal";
  }

  lemma ATenGroupBAliases1()
    ensures forall i | 12 <= i < 24 && IsInPlace(ATenGroupB[i].name) ::
              ATenGroupB[i].name in Orphans || (0 < i && ATenGroupB[i - 1] == Entry(Base(ATenGroupB[i].name), ATenGroupB[i].value))
  {
    ATenGroupBInPlaceLines1();
    ATenGroupBFollows1a();
    ATenGroupBFollows1b();
    ATenGroupBFollows1c();
  }

  /** The in-place keys of lines 46-69 follow their base keys. */
  lemma ATenGroupBAliases()
    ensures FollowsBase(ATenGroupB)
  {
    ATenGroupBAliases0();
    ATenGroupBAliases1();
  }

  lemma ATenGroupCShape0()
    ensures forall i | 0 <= i < 8 :: TensorLine(ATenGroupC[i])
  {
  }

  lemma ATenGroupCShape1()
    ensures forall i | 8 <= i < 16 :: TensorLine(ATenGroupC[i])
  {
  }

  lemma ATenGroupCShape2()
    ensures forall i | 16 <= i < 24 :: TensorLine(ATenGroupC[i])
  {
  }

  /** The lines 70-93 belong to their group. */
  lemma ATenGroupCShape()
    ensures AllTensor(ATenGroupC)
  {
    ATenGroupCShape0();
    ATenGroupCShape1();
    ATenGroupCShape2();
  }

  lemma ATenGroupCInPlaceLines0()
    ensures forall i | 0 <= i < 12 && IsInPlace(ATenGroupC[i].name) :: i in {1, 3, 11}
  {
  }

  lemma ATenGroupCInPlaceEntries0a()
    ensures ATenGroupC[0] == Entry("aten::rsqrt", ATen(ATenRsqrtOperator))
    ensures ATenGroupC[1] == Entry("aten::rsqrt_", ATen(ATenRsqrtOperator))
    ensures ATenGroupC[2] == Entry("aten::rsub", ATen(ATenRsubOperator))
    ensures ATenGroupC[3] == Entry("aten::rsub_", ATen(ATenRsubOperator))
  {
  }

  lemma ATenGroupCFollows0a()
    ensures ATenGroupC[0] == Entry(Base(ATenGroupC[1].name), ATenGroupC[1].value)
    ensures ATenGroupC[2] == Entry(Base(ATenGroupC[3].name), ATenGroupC[3].value)
  {
    ATenGroupCInPlaceEntries0a();
    assert Base("aten::rsqrt_") == "aten::rsqrt";
    assert Base("aten::rsub_") == "aten::rsub";
  }

  lemma ATenGroupCInPlaceEntries0b()
    ensures ATenGroupC[10] == Entry("aten::unsqueeze", ATen(ATenUnsqueezeOperator))
    ensures ATenGroupC[11] == Entry("aten::unsqueeze_", ATen(ATenUnsqueezeOperator))
  {
  }

  lemma ATenGroupCFollows0b()
    ensures ATenGroupC[10] == Entry(Base(ATenGroupC[11].name), ATenGroupC[11].value)
  {
    ATenGroupCInPlaceEntries0b();
    assert Base("aten::unsqueeze_") == "aten::unsqueeze";
  }

  lemma ATenGroupCAliases0()
    ensures forall i | 0 <= i < 12 && IsInPlace(ATenGroupC[i].name) ::
              ATenGroupC[i].name in Orphans || (0 < i && ATenGroupC[i - 1] == Entry(Base(ATenGroupC[i].name), ATenGroupC[i].value))
  {
    ATenGroupCInPlaceLines0();
    ATenGroupCFollows0a();
    ATenGroupCFollows0b();
  }

  lemma ATenGroupCInPlaceLines1()
    ensures forall i | 12 <= i < 24 && IsInPlace(ATenGroupC[i].name) :: i in {13}
  {
  }

  lemma ATenGroupCInPlaceEntries1()
    ensures ATenGroupC[12] == Entry("aten::squeeze", ATen(ATenSqueezeOperator))
    ensures ATenGroupC[13] == Entry("aten::squeeze_", ATen(ATenSqueezeOperator))
  {
  }

  lemma ATenGroupCFollows1()
    ensures ATenGroupC[12] == Entry(Base(ATenGroupC[13].name), ATenGroupC[13].value)
  {
    ATenGroupCInPlaceEntries1();
    assert Base("aten::squeeze_") == "aten::squeeze";
  }

  lemma ATenGroupCAliases1()
    ensures forall i | 12 <= i < 24 && IsInPlace(ATenGroupC[i].name) ::
              ATenGroupC[i].name in Orphans || (0 < i && ATenGroupC[i - 1] == Entry(Base(ATenGroupC[i].name), ATenGroupC[i].value))
  {
    ATenGroupCInPlaceLines1();
    ATenGroupCFollows1();
  }

  /** The in-place keys of lines 70-93 follow their base keys. */
  lemma ATenGroupCAliases()
    ensures FollowsBase(ATenGroupC)
  {
    ATenGroupCAliases0();
    ATenGroupCAliases1();
  }

  lemma ATenGroupDShape0()
    ensures forall i | 0 <= i < 8 :: TensorLine(ATenGroupD[i])
  {
  }

  lemma ATenGroupDShape1()
    ensures forall i | 8 <= i < 16 :: TensorLine(ATenGroupD[i])
  {
  }

  lemma ATenGroupDShape2()
    ensures forall i | 16 <= i < 24 :: TensorLine(ATenGroupD[i])
  {
  }

  /** The lines 94-117 belong to their group. */
  lemma ATenGroupDShape()
    ensures AllTensor(ATenGroupD)
  {
    ATenGroupDShape0();
    ATenGroupDShape1();
    ATenGroupDShape2();
  }

  lemma ATenGroupDInPlaceLines0()
    ensures forall i | 0 <= i < 12 && IsInPlace(ATenGroupD[i].name) :: i in {1}
  {
  }

  lemma ATenGroupDInPlaceEntries0()
    ensures ATenGroupD[0] == Entry("aten::hardtanh", ATen(ATenHardtanhOperator))
    ensures ATenGroupD[1] == Entry("aten::hardtanh_", ATen(ATenHardtanhOperator))
  {
  }

  lemma ATenGroupDFollows0()
    ensures ATenGroupD[0] == Entry(Base(ATenGroupD[1].name), ATenGroupD[1].value)
  {
    ATenGroupDInPlaceEntries0();
    assert Base("aten::hardtanh_") == "aten::hardtanh";
  }

  lemma ATenGroupDAliases0()
    ensures forall i | 0 <= i < 12 && IsInPlace(ATenGroupD[i].name) ::
              ATenGroupD[i].name in Orphans || (0 < i && ATenGroupD[i - 1] == Entry(Base(ATenGroupD[i].name), ATenGroupD[i].value))
  {
    ATenGroupDInPlaceLines0();
    ATenGroupDFollows0();
  }

  lemma ATenGroupDAliases1()
    ensures forall i | 12 <= i < 24 && IsInPlace(ATenGroupD[i].name) ::
              ATenGroupD[i].name in Orphans || (0 < i && ATenGroupD[i - 1] == Entry(Base(ATenGroupD[i].name), ATenGroupD[i].value))
  {
    assert forall i | 12 <= i < 24 :: !IsInPlace(ATenGroupD[i].name);
  }

  /** The in-place keys of lines 94-117 follow their base keys. */
  lemma ATenGroupDAliases()
    ensures FollowsBase(ATenGroupD)
  {
    ATenGroupDAliases0();
    ATenGroupDAliases1();
  }

  lemma ATenGroupEShape0()
    ensures forall i | 0 <= i < 8 :: TensorLine(ATenGroupE[i])
  {
  }

  lemma ATenGroupEShape1()
    ensures forall i | 8 <= i < 16 :: TensorLine(ATenGroupE[i])
  {
  }

  lemma ATenGroupEShape2()
    ensures forall i | 16 <= i < 24 :: TensorLine(ATenGroupE[i])
  {
  }

  /** The lines 118-141 belong to their group. */
  lemma ATenGroupEShape()
    ensures AllTensor(ATenGroupE)
  {
    ATenGroupEShape0();
    ATenGroupEShape1();
    ATenGroupEShape2();
  }

  lemma ATenGroupEInPlaceLines0()
    ensures forall i | 0 <= i < 12 && IsInPlace(ATenGroupE[i].name) :: i in {2, 4, 6}
  {
  }

  lemma ATenGroupEInPlaceEntries0a()
    ensures ATenGroupE[1] == Entry("aten::hardswish", ATen(ATenHardswishOperator))
    ensures ATenGroupE[2] == Entry("aten::hardswish_", ATen(ATenHardswishOperator))
    ensures ATenGroupE[3] == Entry("aten::hardsigmoid", ATen(ATenHardsigmoidOperator))
    ensures ATenGroupE[4] == Entry("aten::hardsigmoid_", ATen(ATenHardsigmoidOperator))
  {
  }

  lemma ATenGroupEFollows0a()
    ensures ATenGroupE[1] == Entry(Base(ATenGroupE[2].name), ATenGroupE[2].value)
    ensures ATenGroupE[3] == Entry(Base(ATenGroupE[4].name), ATenGroupE[4].value)
  {
    ATenGroupEInPlaceEntries0a();
    assert Base("aten::hardswish_") == "aten::hardswish";
    assert Base("aten::hardsigmoid_") == "aten::hardsigmoid";
  }

  lemma ATenGroupEInPlaceEntries0b()
    ensures ATenGroupE[5] == Entry("aten::silu", ATen(ATenSiluOperator))
    ensures ATenGroupE[6] == Entry("aten::silu_", ATen(ATenSiluOperator))
  {
  }

  lemma ATenGroupEFollows0b()
    ensures ATenGroupE[5] == Entry(Base(ATenGroupE[6].name), ATenGroupE[6].value)
  {
    ATenGroupEInPlaceEntries0b();
    assert Base("aten::silu_") == "aten::silu";
  }

  lemma ATenGroupEAliases0()
    ensures forall i | 0 <= i < 12 && IsInPlace(ATenGroupE[i].name) ::
              ATenGroupE[i].name in Orphans || (0 < i && ATenGroupE[i - 1] == Entry(Base(ATenGroupE[i].name), ATenGroupE[i].value))
  {
    ATenGroupEInPlaceLines0();
    ATenGroupEFollows0a();
    ATenGroupEFollows0b();
  }

  lemma ATenGroupEInPlaceLines1()
    ensures forall i | 12 <= i < 24 && IsInPlace(ATenGroupE[i].name) :: i in {19, 20}
  {
  }

  lemma ATenGroupEInPlaceEntries1()
    ensures ATenGroupE[18] == Entry("aten::gelu", ATen(ATenGeluOperator))
    ensures ATenGroupE[19] == Entry("aten::gelu_", ATen(ATenGeluOperator))
    ensures ATenGroupE[20].name == "aten::copy_"
  {
  }

  lemma ATenGroupEFollows1()
    ensures ATenGroupE[18] == Entry(Base(ATenGroupE[19].name), ATenGroupE[19].value)
    ensures ATenGroupE[20].name in Orphans
  {
    ATenGroupEInPlaceEntries1();
    assert Base("aten::gelu_") == "aten::gelu";
    assert "aten::copy_" in Orphans;
  }

  lemma ATenGroupEAliases1()
    ensures forall i | 12 <= i < 24 && IsInPlace(ATenGroupE[i].name) ::
              ATenGroupE[i].name in Orphans || (0 < i && ATenGroupE[i - 1] == Entry(Base(ATenGroupE[i].name), ATenGroupE[i].value))
  {
    ATenGroupEInPlaceLines1();
    ATenGroupEFollows1();
  }

  /** The in-place keys of lines 118-141 follow their base keys. */
  lemma ATenGroupEAliases()
    ensures FollowsBase(ATenGroupE)
  {
    ATenGroupEAliases0();
    ATenGroupEAliases1();
  }

  lemma ATenGroupFShape0()
    ensures forall i | 0 <= i < 8 :: TensorLine(ATenGroupF[i])
  {
  }

  lemma ATenGroupFShape1()
    ensures forall i | 8 <= i < 16 :: TensorLine(ATenGroupF[i])
  {
  }

  lemma ATenGroupFShape2()
    ensures forall i | 16 <= i < 24 :: TensorLine(ATenGroupF[i])
  {
  }

  /** The lines 142-165 belong to their group. */
  lemma ATenGroupFShape()
    ensures AllTensor(ATenGroupF)
  {
    ATenGroupFShape0();
    ATenGroupFShape1();
    ATenGroupFShape2();
  }

  lemma ATenGroupFInPlaceLines0()
    ensures forall i | 0 <= i < 12 && IsInPlace(ATenGroupF[i].name) :: i in {3, 4}
  {
  }

  lemma ATenGroupFInPlaceEntries0()
    ensures ATenGroupF[3].name == "aten::__and__"
    ensures ATenGroupF[4].name == "aten::__or__"
  {
  }

  lemma ATenGroupFFollows0()
    ensures ATenGroupF[3].name in Orphans
    ensures ATenGroupF[4].name in Orphans
  {
    ATenGroupFInPlaceEntries0();
    assert "aten::__and__" in Orphans;
    assert "aten::__or__" in Orphans;
  }

  lemma ATenGroupFAliases0()
    ensures forall i | 0 <= i < 12 && IsInPlace(ATenGroupF[i].name) ::
              ATenGroupF[i].name in Orphans || (0 < i && ATenGroupF[i - 1] == Entry(Base(ATenGroupF[i].name), ATenGroupF[i].value))
  {
    ATenGroupFInPlaceLines0();
    ATenGroupFFollows0();
  }

  lemma ATenGroupFInPlaceLines1()
    ensures forall i | 12 <= i < 24 && IsInPlace(ATenGroupF[i].name) :: i in {12, 14}
  {
  }

  lemma ATenGroupFInPlaceEntries1()
    ensures ATenGroupF[11] == Entry("aten::glu", ATen(ATenGluOperator))
    ensures ATenGroupF[12] == Entry("aten::glu_", ATen(ATenGluOperator))
    ensures ATenGroupF[13] == Entry("aten::masked_fill", ATen(ATenMaskedFillOperator))
    ensures ATenGroupF[14] == Entry("aten::masked_fill_", ATen(ATenMaskedFillOperator))
  {
  }

  lemma ATenGroupFFollows1()
    ensures ATenGroupF[11] == Entry(Base(ATenGroupF[12].name), ATenGroupF[12].value)
    ensures ATenGroupF[13] == Entry(Base(ATenGroupF[14].name), ATenGroupF[14].value)
  {
    ATenGroupFInPlaceEntries1();
    assert Base("aten::glu_") == "aten::glu";
    assert Base("aten::masked_fill_") == "aten::masked_fill";
  }

  lemma ATenGroupFAliases1()
    ensures forall i | 12 <= i < 24 && IsInPlace(ATenGroupF[i].name) ::
              ATenGroupF[i].name in Orphans || (0 < i && ATenGroupF[i - 1] == Entry(Base(ATenGroupF[i].name), ATenGroupF[i].value))
  {
    ATenGroupFInPlaceLines1();
    ATenGroupFFollows1();
  }

  /** The in-place keys of lines 142-165 follow their base keys. */
  lemma ATenGroupFAliases()
    ensures FollowsBase(ATenGroupF)
  {
    ATenGroupFAliases0();
    ATenGroupFAliases1();
  }

  lemma ATenGroupGShape0()
    ensures forall i | 0 <= i < 7 :: TensorLine(ATenGroupG[i])
  {
  }

  lemma ATenGroupGShape1()
    ensures forall i | 7 <= i < 14 :: TensorLine(ATenGroupG[i])
  {
  }

  lemma ATenGroupGShape2()
    ensures forall i | 14 <= i < 21 :: TensorLine(ATenGroupG[i])
  {
  }

  /** The lines 166-186 belong to their group. */
  lemma ATenGroupGShape()
    ensures AllTensor(ATenGroupG)
  {
    ATenGroupGShape0();
    ATenGroupGShape1();
    ATenGroupGShape2();
  }

  lemma ATenGroupGInPlaceLines0()
    ensures forall i | 0 <= i < 10 && IsInPlace(ATenGroupG[i].name) :: i in {2, 7}
  {
  }

  lemma ATenGroupGInPlaceEntries0()
    ensures ATenGroupG[2].name == "aten::fill_"
    ensures ATenGroupG[7].name == "aten::scatter_"
  {
  }

  lemma ATenGroupGFollows0()
    ensures ATenGroupG[2].name in Orphans
    ensures ATenGroupG[7].name in Orphans
  {
    ATenGroupGInPlaceEntries0();
    assert "aten::fill_" in Orphans;
    assert "aten::scatter_" in Orphans;
  }

  lemma ATenGroupGAliases0()
    ensures forall i | 0 <= i < 10 && IsInPlace(ATenGroupG[i].name) ::
              ATenGroupG[i].name in Orphans || (0 < i && ATenGroupG[i - 1] == Entry(Base(ATenGroupG[i].name), ATenGroupG[i].value))
  {
    ATenGroupGInPlaceLines0();
    ATenGroupGFollows0();
  }

  lemma ATenGroupGInPlaceLines1()
    ensures forall i | 10 <= i < 21 && IsInPlace(ATenGroupG[i].name) :: i in {19}
  {
  }

  lemma ATenGroupGInPlaceEntries1()
    ensures ATenGroupG[18] == Entry("aten::index_put", ATen(ATenIndexPutOperator))
    ensures ATenGroupG[19] == Entry("aten::index_put_", ATen(ATenIndexPutOperator))
  {
  }

  lemma ATenGroupGFollows1()
    ensures ATenGroupG[18] == Entry(Base(ATenGroupG[19].name), ATenGroupG[19].value)
  {
    ATenGroupGInPlaceEntries1();
    assert Base("aten::index_put_") == "aten::index_put";
  }

  lemma ATenGroupGAliases1()
    ensures forall i | 10 <= i < 21 && IsInPlace(ATenGroupG[i].name) ::
              ATenGroupG[i].name in Orphans || (0 < i && ATenGroupG[i - 1] == Entry(Base(ATenGroupG[i].name), ATenGroupG[i].value))
  {
    ATenGroupGInPlaceLines1();
    ATenGroupGFollows1();
  }

  /** The in-place keys of lines 166-186 follow their base keys. */
  lemma ATenGroupGAliases()
    ensures FollowsBase(ATenGroupG)
  {
    ATenGroupGAliases0();
    ATenGroupGAliases1();
  }

  lemma QuantizedGroupAShape0()
    ensures forall i | 0 <= i < 5 :: QuantizedLine(QuantizedGroupA[i])
  {
    assert HasPrefix("aten::quantize_per_tensor", "aten::");
    assert HasPrefix("aten::fake_quantize_per_tensor_affine", "aten::");
    assert HasPrefix("aten::fake_quantize_per_channel_affine", "aten::");
    assert HasPrefix("aten::quantized_lstm", "aten::");
    assert HasPrefix("aten::dequantize", "aten::");
  }

  lemma QuantizedGroupAShape1()
    ensures forall i | 5 <= i < 9 :: QuantizedLine(QuantizedGroupA[i])
  {
  }

  lemma QuantizedGroupAShape2()
    ensures forall i | 9 <= i < 14 :: QuantizedLine(QuantizedGroupA[i])
  {
  }

  /** The lines 188-201 belong to their group. */
  lemma QuantizedGroupAShape()
    ensures AllQuantized(QuantizedGroupA)
  {
    QuantizedGroupAShape0();
    QuantizedGroupAShape1();
    QuantizedGroupAShape2();
  }

  lemma QuantizedGroupAAliases0()
    ensures forall i | 0 <= i < 7 && IsInPlace(QuantizedGroupA[i].name) ::
              QuantizedGroupA[i].name in Orphans || (0 < i && QuantizedGroupA[i - 1] == Entry(Base(QuantizedGroupA[i].name), QuantizedGroupA[i].value))
  {
    assert forall i | 0 <= i < 7 :: !IsInPlace(QuantizedGroupA[i].name);
  }

  lemma QuantizedGroupAAliases1()
    ensures forall i | 7 <= i < 14 && IsInPlace(QuantizedGroupA[i].name) ::
              QuantizedGroupA[i].name in Orphans || (0 < i && QuantizedGroupA[i - 1] == Entry(Base(QuantizedGroupA[i].name), QuantizedGroupA[i].value))
  {
    assert forall i | 7 <= i < 14 :: !IsInPlace(QuantizedGroupA[i].name);
  }

  /** The in-place keys of lines 188-201 follow their base keys. */
  lemma QuantizedGroupAAliases()
    ensures FollowsBase(QuantizedGroupA)
  {
    QuantizedGroupAAliases0();
    QuantizedGroupAAliases1();
  }

  lemma QuantizedGroupBShape0()
    ensures forall i | 0 <= i < 7 :: QuantizedLine(QuantizedGroupB[i])
  {
  }

  lemma QuantizedGroupBShape1()
    ensures forall i | 7 <= i < 14 :: QuantizedLine(QuantizedGroupB[i])
  {
  }

  /** The lines 202-215 belong to their group. */
  lemma QuantizedGroupBShape()
    ensures AllQuantized(QuantizedGroupB)
  {
    QuantizedGroupBShape0();
    QuantizedGroupBShape1();
  }

  lemma QuantizedGroupBAliases0()
    ensures forall i | 0 <= i < 7 && IsInPlace(QuantizedGroupB[i].name) ::
              QuantizedGroupB[i].name in Orphans || (0 < i && QuantizedGroupB[i - 1] == Entry(Base(QuantizedGroupB[i].name), QuantizedGroupB[i].value))
  {
    assert forall i | 0 <= i < 7 :: !IsInPlace(QuantizedGroupB[i].name);
  }

  lemma QuantizedGroupBAliases1()
    ensures forall i | 7 <= i < 14 && IsInPlace(QuantizedGroupB[i].name) ::
              QuantizedGroupB[i].name in Orphans || (0 < i && QuantizedGroupB[i - 1] == Entry(Base(QuantizedGroupB[i].name), QuantizedGroupB[i].value))
  {
    assert forall i | 7 <= i < 14 :: !IsInPlace(QuantizedGroupB[i].name);
  }

  /** The in-place keys of lines 202-215 follow their base keys. */
  lemma QuantizedGroupBAliases()
    ensures FollowsBase(QuantizedGroupB)
  {
    QuantizedGroupBAliases0();
    QuantizedGroupBAliases1();
  }

  lemma NonTrackingGroupShape0()
    ensures forall i | 0 <= i < 6 :: NonTrackingLine(NonTrackingGroup[i])
  {
  }

  lemma NonTrackingGroupShape1()
    ensures forall i | 6 <= i < 12 :: NonTrackingLine(NonTrackingGroup[i])
  {
  }

  /** The lines 217-228 belong to their group. */
  lemma NonTrackingGroupShape()
    ensures AllNonTracking(NonTrackingGroup)
  {
    NonTrackingGroupShape0();
    NonTrackingGroupShape1();
  }

  lemma NonTrackingGroupAliases0()
    ensures forall i | 0 <= i < 12 && IsInPlace(NonTrackingGroup[i].name) ::
              NonTrackingGroup[i].name in Orphans || (0 < i && NonTrackingGroup[i - 1] == Entry(Base(NonTrackingGroup[i].name), NonTrackingGroup[i].value))
  {
    assert forall i | 0 <= i < 12 :: !IsInPlace(NonTrackingGroup[i].name);
  }

  /** The in-place keys of lines 217-228 follow their base keys. */
  lemma NonTrackingGroupAliases()
    ensures FollowsBase(NonTrackingGroup)
  {
    NonTrackingGroupAliases0();
  }

  /** The tensor group, lines 22-186. */
  lemma ATenGroupFacts()
    ensures AllTensor(ATenGroup) && FollowsBase(ATenGroup)
  {
    ATenGroupAShape(); ATenGroupAAliases();
    ATenGroupBShape(); ATenGroupBAliases();
    ATenGroupCShape(); ATenGroupCAliases();
    ATenGroupDShape(); ATenGroupDAliases();
    ATenGroupEShape(); ATenGroupEAliases();
    ATenGroupFShape(); ATenGroupFAliases();
    ATenGroupGShape(); ATenGroupGAliases();
    var s := ATenGroupA;
    TensorConcat(s, ATenGroupB); FollowsBaseConcat(s, ATenGroupB); s := s + ATenGroupB;
    TensorConcat(s, ATenGroupC); FollowsBaseConcat(s, ATenGroupC); s := s + ATenGroupC;
    TensorConcat(s, ATenGroupD); FollowsBaseConcat(s, ATenGroupD); s := s + ATenGroupD;
    TensorConcat(s, ATenGroupE); FollowsBaseConcat(s, ATenGroupE); s := s + ATenGroupE;
    TensorConcat(s, ATenGroupF); FollowsBaseConcat(s, ATenGroupF); s := s + ATenGroupF;
    TensorConcat(s, ATenGroupG); FollowsBaseConcat(s, ATenGroupG); s := s + ATenGroupG;
  }

  /** The quantized group, lines 188-215. */
  lemma QuantizedGroupFacts()
    ensures AllQuantized(QuantizedGroup) && FollowsBase(QuantizedGroup)
  {
    QuantizedGroupAShape(); QuantizedGroupAAliases();
    QuantizedGroupBShape(); QuantizedGroupBAliases();
    QuantizedConcat(QuantizedGroupA, QuantizedGroupB);
    FollowsBaseConcat(QuantizedGroupA, QuantizedGroupB);
  }

  /** Every in-place key of the literal except the orphans follows its base key. */
  lemma LinesFollowBase()
    ensures FollowsBase(Lines)
  {
    PrimGroupAliases();
    ATenGroupFacts();
    QuantizedGroupFacts();
    NonTrackingGroupAliases();
    FollowsBaseConcat(PrimGroup, ATenGroup);
    FollowsBaseConcat(PrimGroup + ATenGroup, QuantizedGroup);
    FollowsBaseConcat(PrimGroup + ATenGroup + QuantizedGroup, NonTrackingGroup);
  }
}
