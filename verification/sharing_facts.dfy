/**
 * Which keys of the registry literal share a converter class. Apart from the
 * two generic handlers of the non-tracking group, a class is named by one key,
 * or by two keys on consecutive lines: a key and its in-place twin
 * (`aten::add`, `aten::add_`), or `aten::chunk` and `aten::unsafe_chunk`.
 * Fused quantized operators such as `quantized::add_relu` therefore have
 * classes of their own.
 *
 * The proof compares the converters of the lines pairwise, block by block and
 * between blocks; lines of different groups hold classes of different groups.
 */
module SharingFacts {
  import opened DictLiteral
  import opened Converters
  import opened Registry
  import opened GroupFacts

  /** The two generic handlers, which many keys share. */
  predicate Generic(c: Converter)
  {
    c == TrackConstantOperator || c == NoTrackOperator
  }

  /** `b` is the key registered right after `a` for the same converter class. */
  predicate Twins(a: string, b: string)
  {
    b == a + "_" || (a == "aten::chunk" && b == "aten::unsafe_chunk")
  }

  /** Two lines share a class other than the generic ones only as consecutive twins. */
  predicate SharedByTwinsOnly(lines: seq<Line>)
  {
    forall i, j | 0 <= i < j < |lines| && lines[i].value == lines[j].value && !Generic(lines[i].value) ::
      j == i + 1 && Twins(lines[i].name, lines[j].name)
  }

  /** No line of `a` has the class of a line of `b`. */
  predicate ValuesApart(a: seq<Line>, b: seq<Line>)
  {
    forall i, j | 0 <= i < |a| && 0 <= j < |b| :: a[i].value != b[j].value
  }

  /** Joining two blocks keeps sharing to twins when no non-generic class of `a` occurs in `b`. */
  lemma SharedConcat(a: seq<Line>, b: seq<Line>)
    requires SharedByTwinsOnly(a) && SharedByTwinsOnly(b)
    requires forall i, j | 0 <= i < |a| && 0 <= j < |b| && !Generic(a[i].value) :: a[i].value != b[j].value
    ensures SharedByTwinsOnly(a + b)
  {
    var ab := a + b;
    forall i, j | 0 <= i < j < |ab|
      ensures ab[i].value == ab[j].value && !Generic(ab[i].value) ==> j == i + 1 && Twins(ab[i].name, ab[j].name)
    {
      if j < |a| {
        assert ab[i] == a[i] && ab[j] == a[j];
      } else if i >= |a| {
        assert ab[i] == b[i - |a|] && ab[j] == b[j - |a|];
      } else {
        assert ab[i] == a[i] && ab[j] == b[j - |a|];
      }
    }
  }

  lemma ApartConcat(a: seq<Line>, b: seq<Line>, c: seq<Line>)
    requires ValuesApart(a, c) && ValuesApart(b, c)
    ensures ValuesApart(a + b, c)
  {
    forall i, j | 0 <= i < |a + b| && 0 <= j < |c|
      ensures (a + b)[i].value != c[j].value
    {
      if i < |a| {
        assert (a + b)[i] == a[i];
      } else {
        assert (a + b)[i] == b[i - |a|];
      }
    }
  }

  /** Every line of `lines` holds a class of category `cat`. */
  predicate InCategory(lines: seq<Line>, cat: Category)
  {
    forall i | 0 <= i < |lines| :: CategoryOf(lines[i].value) == cat
  }

  /** Each group of the literal holds classes of its own category. */
  lemma GroupCategories()
    ensures InCategory(PrimGroup, Structural)
    ensures InCategory(ATenGroup, Tensor)
    ensures InCategory(QuantizedGroup, Quantization)
    ensures forall i | 0 <= i < |NonTrackingGroup| :: Generic(NonTrackingGroup[i].value)
  {
    PrimGroupShape();
    ATenGroupFacts();
    QuantizedGroupFacts();
    NonTrackingGroupShape();
    assert forall i | 0 <= i < |NonTrackingGroup| :: NonTrackingLine(NonTrackingGroup[i]);
  }

  /** Lines of different categories never share a class. */
  lemma CategoriesApart(a: seq<Line>, b: seq<Line>, ca: Category, cb: Category)
    requires InCategory(a, ca) && InCategory(b, cb) && ca != cb
    ensures ValuesApart(a, b)
  {
  }

  /** The generic handlers are classes of their own categories. */
  lemma GenericApart(a: seq<Line>, b: seq<Line>, ca: Category)
    requires InCategory(a, ca) && ca in {Structural, Tensor, Quantization}
    requires forall i | 0 <= i < |b| :: Generic(b[i].value)
    ensures ValuesApart(a, b)
  {
    forall i, j | 0 <= i < |a| && 0 <= j < |b|
      ensures a[i].value != b[j].value
    {
      assert CategoryOf(a[i].value) == ca;
    }
  }

  /** Two lines of `lines` with the same converter, other than a generic one, have twin keys. */
  lemma SharedPair(lines: seq<Line>, e1: Line, e2: Line)
    requires SharedByTwinsOnly(lines)
    requires e1 in lines && e2 in lines && e1.value == e2.value && e1.name != e2.name && !Generic(e1.value)
    ensures Twins(e1.name, e2.name) || Twins(e2.name, e1.name)
  {
    var i :| 0 <= i < |lines| && lines[i] == e1;
    var j :| 0 <= j < |lines| && lines[j] == e2;
    if i < j {
      assert Twins(e1.name, e2.name);
    } else {
      assert i != j;
      assert Twins(e2.name, e1.name);
    }
  }

  /** In four groups of four categories, a line's category tells its group. */
  lemma GroupOfCategory(p: seq<Line>, a: seq<Line>, q: seq<Line>, n: seq<Line>, e: Line)
    requires InCategory(p, Structural) && InCategory(a, Tensor) && InCategory(q, Quantization)
    requires forall i | 0 <= i < |n| :: Generic(n[i].value)
    requires e in p + a + q + n
    ensures CategoryOf(e.value) == Structural ==> e in p
    ensures CategoryOf(e.value) == Tensor ==> e in a
    ensures CategoryOf(e.value) == Quantization ==> e in q
    ensures Generic(e.value) ==> e in n
  {
    assert e in p || e in a || e in q || e in n;
    if e in p {
      var i :| 0 <= i < |p| && p[i] == e;
    } else if e in a {
      var i :| 0 <= i < |a| && a[i] == e;
    } else if e in q {
      var i :| 0 <= i < |q| && q[i] == e;
    } else {
      var i :| 0 <= i < |n| && n[i] == e;
    }
  }

  /** A group whose lines all hold a generic handler shares nothing but those. */
  lemma NonTrackingShared(lines: seq<Line>)
    requires forall i | 0 <= i < |lines| :: Generic(lines[i].value)
    ensures SharedByTwinsOnly(lines)
  {
  }

  /** Lines with pairwise different classes share nothing. */
  lemma DistinctShared(lines: seq<Line>)
    requires DistinctValues(lines)
    ensures SharedByTwinsOnly(lines)
  {
  }

  lemma ATenGroupAApartInside0()
    ensures forall i, j | 0 <= i < 8 && i < j < |ATenGroupA| && j != i + 1 :: ATenGroupA[i].value != ATenGroupA[j].value
  {
  }

  lemma ATenGroupAApartInside1()
    ensures forall i, j | 8 <= i < 16 && i < j < |ATenGroupA| && j != i + 1 :: ATenGroupA[i].value != ATenGroupA[j].value
  {
  }

  lemma ATenGroupAApartInside2()
    ensures forall i, j | 16 <= i < 24 && i < j < |ATenGroupA| && j != i + 1 :: ATenGroupA[i].value != ATenGroupA[j].value
  {
  }

  lemma ATenGroupAApartInside()
    ensures forall i, j | 0 <= i < j < |ATenGroupA| && j != i + 1 :: ATenGroupA[i].value != ATenGroupA[j].value
  {
    ATenGroupAApartInside0();
    ATenGroupAApartInside1();
    ATenGroupAApartInside2();
  }

  lemma ATenGroupANeighbours()
    ensures forall i | 0 < i < |ATenGroupA| && i != 5 && i != 7 && i != 10 && i != 12 :: ATenGroupA[i - 1].value != ATenGroupA[i].value
  {
  }

  lemma ATenGroupATwinsAt5()
    ensures Twins(ATenGroupA[4].name, ATenGroupA[5].name)
  {
    assert ATenGroupA[4].name == "aten::relu";
    assert ATenGroupA[5].name == "aten::relu_";
    assert Twins("aten::relu", "aten::relu_");
  }

  lemma ATenGroupATwinsAt7()
    ensures Twins(ATenGroupA[6].name, ATenGroupA[7].name)
  {
    assert ATenGroupA[6].name == "aten::relu6";
    assert ATenGroupA[7].name == "aten::relu6_";
    assert Twins("aten::relu6", "aten::relu6_");
  }

  lemma ATenGroupATwinsAt10()
    ensures Twins(ATenGroupA[9].name, ATenGroupA[10].name)
  {
    assert ATenGroupA[9].name == "aten::leaky_relu";
    assert ATenGroupA[10].name == "aten::leaky_relu_";
    assert Twins("aten::leaky_relu", "aten::leaky_relu_");
  }

  lemma ATenGroupATwinsAt12()
    ensures Twins(ATenGroupA[11].name, ATenGroupA[12].name)
  {
    assert ATenGroupA[11].name == "aten::elu";
    assert ATenGroupA[12].name == "aten::elu_";
    assert Twins("aten::elu", "aten::elu_");
  }

  /** Lines 22-45. */
  lemma ATenGroupAShared()
    ensures SharedByTwinsOnly(ATenGroupA)
  {
    ATenGroupAApartInside();
    ATenGroupANeighbours();
    ATenGroupATwinsAt5();
    ATenGroupATwinsAt7();
    ATenGroupATwinsAt10();
    ATenGroupATwinsAt12();
  }

  lemma ATenGroupBApartInside0()
    ensures forall i, j | 0 <= i < 8 && i < j < |ATenGroupB| && j != i + 1 :: ATenGroupB[i].value != ATenGroupB[j].value
  {
  }

  lemma ATenGroupBApartInside1()
    ensures forall i, j | 8 <= i < 16 && i < j < |ATenGroupB| && j != i + 1 :: ATenGroupB[i].value != ATenGroupB[j].value
  {
  }

  lemma ATenGroupBApartInside2()
    ensures forall i, j | 16 <= i < 24 && i < j < |ATenGroupB| && j != i + 1 :: ATenGroupB[i].value != ATenGroupB[j].value
  {
  }

  lemma ATenGroupBApartInside()
    ensures forall i, j | 0 <= i < j < |ATenGroupB| && j != i + 1 :: ATenGroupB[i].value != ATenGroupB[j].value
  {
    ATenGroupBApartInside0();
    ATenGroupBApartInside1();
    ATenGroupBApartInside2();
  }

  lemma ATenGroupBNeighbours()
    ensures forall i | 0 < i < |ATenGroupB| && i != 1 && i != 3 && i != 9 && i != 13 && i != 15 && i != 17 && i != 19 && i != 21 && i != 23 :: ATenGroupB[i - 1].value != ATenGroupB[i].value
  {
  }

  lemma ATenGroupBTwinsAt1()
    ensures Twins(ATenGroupB[0].name, ATenGroupB[1].name)
  {
    assert ATenGroupB[0].name == "aten::dropout";
    assert ATenGroupB[1].name == "aten::dropout_";
    assert Twins("aten::dropout", "aten::dropout_");
  }

  lemma ATenGroupBTwinsAt3()
    ensures Twins(ATenGroupB[2].name, ATenGroupB[3].name)
  {
    assert ATenGroupB[2].name == "aten::feature_dropout";
    assert ATenGroupB[3].name == "aten::feature_dropout_";
    assert Twins("aten::feature_dropout", "aten::feature_dropout_");
  }

  lemma ATenGroupBTwinsAt9()
    ensures Twins(ATenGroupB[8].name, ATenGroupB[9].name)
  {
    assert ATenGroupB[8].name == "aten::tanh";
    assert ATenGroupB[9].name == "aten::tanh_";
    assert Twins("aten::tanh", "aten::tanh_");
  }

  lemma ATenGroupBTwinsAt13()
    ensures Twins(ATenGroupB[12].name, ATenGroupB[13].name)
  {
    assert ATenGroupB[12].name == "aten::sigmoid";
    assert ATenGroupB[13].name == "aten::sigmoid_";
    assert Twins("aten::sigmoid", "aten::sigmoid_");
  }

  lemma ATenGroupBTwinsAt15()
    ensures Twins(ATenGroupB[14].name, ATenGroupB[15].name)
  {
    assert ATenGroupB[14].name == "aten::add";
    assert ATenGroupB[15].name == "aten::add_";
    assert Twins("aten::add", "aten::add_");
  }

  lemma ATenGroupBTwinsAt17()
    ensures Twins(ATenGroupB[16].name, ATenGroupB[17].name)
  {
    assert ATenGroupB[16].name == "aten::sub";
    assert ATenGroupB[17].name == "aten::sub_";
    assert Twins("aten::sub", "aten::sub_");
  }

  lemma ATenGroupBTwinsAt19()
    ensures Twins(ATenGroupB[18].name, ATenGroupB[19].name)
  {
    assert ATenGroupB[18].name == "aten::mul";
    assert ATenGroupB[19].name == "aten::mul_";
    assert Twins("aten::mul", "aten::mul_");
  }

  lemma ATenGroupBTwinsAt21()
    ensures Twins(ATenGroupB[20].name, ATenGroupB[21].name)
  {
    assert ATenGroupB[20].name == "aten::div";
    assert ATenGroupB[21].name == "aten::div_";
    assert Twins("aten::div", "aten::div_");
  }

  lemma ATenGroupBTwinsAt23()
    ensures Twins(ATenGroupB[22].name, ATenGroupB[23].name)
  {
    assert ATenGroupB[22].name == "aten::reciprocal";
    assert ATenGroupB[23].name == "aten::reciprocal_";
    assert Twins("aten::reciprocal", "aten::reciprocal_");
  }

  /** Lines 46-69. */
  lemma ATenGroupBShared()
    ensures SharedByTwinsOnly(ATenGroupB)
  {
    ATenGroupBApartInside();
    ATenGroupBNeighbours();
    ATenGroupBTwinsAt1();
    ATenGroupBTwinsAt3();
    ATenGroupBTwinsAt9();
    ATenGroupBTwinsAt13();
    ATenGroupBTwinsAt15();
    ATenGroupBTwinsAt17();
    ATenGroupBTwinsAt19();
    ATenGroupBTwinsAt21();
    ATenGroupBTwinsAt23();
  }

  lemma ATenGroupCApartInside0()
    ensures forall i, j | 0 <= i < 8 && i < j < |ATenGroupC| && j != i + 1 :: ATenGroupC[i].value != ATenGroupC[j].value
  {
  }

  lemma ATenGroupCApartInside1()
    ensures forall i, j | 8 <= i < 16 && i < j < |ATenGroupC| && j != i + 1 :: ATenGroupC[i].value != ATenGroupC[j].value
  {
  }

  lemma ATenGroupCApartInside2()
    ensures forall i, j | 16 <= i < 24 && i < j < |ATenGroupC| && j != i + 1 :: ATenGroupC[i].value != ATenGroupC[j].value
  {
  }

  lemma ATenGroupCApartInside()
    ensures forall i, j | 0 <= i < j < |ATenGroupC| && j != i + 1 :: ATenGroupC[i].value != ATenGroupC[j].value
  {
    ATenGroupCApartInside0();
    ATenGroupCApartInside1();
    ATenGroupCApartInside2();
  }

  lemma ATenGroupCNeighbours()
    ensures forall i | 0 < i < |ATenGroupC| && i != 1 && i != 3 && i != 11 && i != 13 && i != 18 :: ATenGroupC[i - 1].value != ATenGroupC[i].value
  {
  }

  lemma ATenGroupCTwinsAt1()
    ensures Twins(ATenGroupC[0].name, ATenGroupC[1].name)
  {
    assert ATenGroupC[0].name == "aten::rsqrt";
    assert ATenGroupC[1].name == "aten::rsqrt_";
    assert Twins("aten::rsqrt", "aten::rsqrt_");
  }

  lemma ATenGroupCTwinsAt3()
    ensures Twins(ATenGroupC[2].name, ATenGroupC[3].name)
  {
    assert ATenGroupC[2].name == "aten::rsub";
    assert ATenGroupC[3].name == "aten::rsub_";
    assert Twins("aten::rsub", "aten::rsub_");
  }

  lemma ATenGroupCTwinsAt11()
    ensures Twins(ATenGroupC[10].name, ATenGroupC[11].name)
  {
    assert ATenGroupC[10].name == "aten::unsqueeze";
    assert ATenGroupC[11].name == "aten::unsqueeze_";
    assert Twins("aten::unsqueeze", "aten::unsqueeze_");
  }

  lemma ATenGroupCTwinsAt13()
    ensures Twins(ATenGroupC[12].name, ATenGroupC[13].name)
  {
    assert ATenGroupC[12].name == "aten::squeeze";
    assert ATenGroupC[13].name == "aten::squeeze_";
    assert Twins("aten::squeeze", "aten::squeeze_");
  }

  lemma ATenGroupCTwinsAt18()
    ensures Twins(ATenGroupC[17].name, ATenGroupC[18].name)
  {
    assert ATenGroupC[17].name == "aten::chunk";
    assert ATenGroupC[18].name == "aten::unsafe_chunk";
    assert Twins("aten::chunk", "aten::unsafe_chunk");
  }

  /** Lines 70-93. */
  lemma ATenGroupCShared()
    ensures SharedByTwinsOnly(ATenGroupC)
  {
    ATenGroupCApartInside();
    ATenGroupCNeighbours();
    ATenGroupCTwinsAt1();
    ATenGroupCTwinsAt3();
    ATenGroupCTwinsAt11();
    ATenGroupCTwinsAt13();
    ATenGroupCTwinsAt18();
  }

  lemma ATenGroupDApartInside0()
    ensures forall i, j | 0 <= i < 8 && i < j < |ATenGroupD| && j != i + 1 :: ATenGroupD[i].value != ATenGroupD[j].value
  {
  }

  lemma ATenGroupDApartInside1()
    ensures forall i, j | 8 <= i < 16 && i < j < |ATenGroupD| && j != i + 1 :: ATenGroupD[i].value != ATenGroupD[j].value
  {
  }

  lemma ATenGroupDApartInside2()
    ensures forall i, j | 16 <= i < 24 && i < j < |ATenGroupD| && j != i + 1 :: ATenGroupD[i].value != ATenGroupD[j].value
  {
  }

  lemma ATenGroupDApartInside()
    ensures forall i, j | 0 <= i < j < |ATenGroupD| && j != i + 1 :: ATenGroupD[i].value != ATenGroupD[j].value
  {
    ATenGroupDApartInside0();
    ATenGroupDApartInside1();
    ATenGroupDApartInside2();
  }

  lemma ATenGroupDNeighbours()
    ensures forall i | 0 < i < |ATenGroupD| && i != 1 :: ATenGroupD[i - 1].value != ATenGroupD[i].value
  {
  }

  lemma ATenGroupDTwinsAt1()
    ensures Twins(ATenGroupD[0].name, ATenGroupD[1].name)
  {
    assert ATenGroupD[0].name == "aten::hardtanh";
    assert ATenGroupD[1].name == "aten::hardtanh_";
    assert Twins("aten::hardtanh", "aten::hardtanh_");
  }

  /** Lines 94-117. */
  lemma ATenGroupDShared()
    ensures SharedByTwinsOnly(ATenGroupD)
  {
    ATenGroupDApartInside();
    ATenGroupDNeighbours();
    ATenGroupDTwinsAt1();
  }

  lemma ATenGroupEApartInside0()
    ensures forall i, j | 0 <= i < 8 && i < j < |ATenGroupE| && j != i + 1 :: ATenGroupE[i].value != ATenGroupE[j].value
  {
  }

  lemma ATenGroupEApartInside1()
    ensures forall i, j | 8 <= i < 16 && i < j < |ATenGroupE| && j != i + 1 :: ATenGroupE[i].value != ATenGroupE[j].value
  {
  }

  lemma ATenGroupEApartInside2()
    ensures forall i, j | 16 <= i < 24 && i < j < |ATenGroupE| && j != i + 1 :: ATenGroupE[i].value != ATenGroupE[j].value
  {
  }

  lemma ATenGroupEApartInside()
    ensures forall i, j | 0 <= i < j < |ATenGroupE| && j != i + 1 :: ATenGroupE[i].value != ATenGroupE[j].value
  {
    ATenGroupEApartInside0();
    ATenGroupEApartInside1();
    ATenGroupEApartInside2();
  }

  lemma ATenGroupENeighbours()
    ensures forall i | 0 < i < |ATenGroupE| && i != 2 && i != 4 && i != 6 && i != 19 :: ATenGroupE[i - 1].value != ATenGroupE[i].value
  {
  }

  lemma ATenGroupETwinsAt2()
    ensures Twins(ATenGroupE[1].name, ATenGroupE[2].name)
  {
    assert ATenGroupE[1].name == "aten::hardswish";
    assert ATenGroupE[2].name == "aten::hardswish_";
    assert Twins("aten::hardswish", "aten::hardswish_");
  }

  lemma ATenGroupETwinsAt4()
    ensures Twins(ATenGroupE[3].name, ATenGroupE[4].name)
  {
    assert ATenGroupE[3].name == "aten::hardsigmoid";
    assert ATenGroupE[4].name == "aten::hardsigmoid_";
    assert Twins("aten::hardsigmoid", "aten::hardsigmoid_");
  }

  lemma ATenGroupETwinsAt6()
    ensures Twins(ATenGroupE[5].name, ATenGroupE[6].name)
  {
    assert ATenGroupE[5].name == "aten::silu";
    assert ATenGroupE[6].name == "aten::silu_";
    assert Twins("aten::silu", "aten::silu_");
  }

  lemma ATenGroupETwinsAt19()
    ensures Twins(ATenGroupE[18].name, ATenGroupE[19].name)
  {
    assert ATenGroupE[18].name == "aten::gelu";
    assert ATenGroupE[19].name == "aten::gelu_";
    assert Twins("aten::gelu", "aten::gelu_");
  }

  /** Lines 118-141. */
  lemma ATenGroupEShared()
    ensures SharedByTwinsOnly(ATenGroupE)
  {
    ATenGroupEApartInside();
    ATenGroupENeighbours();
    ATenGroupETwinsAt2();
    ATenGroupETwinsAt4();
    ATenGroupETwinsAt6();
    ATenGroupETwinsAt19();
  }

  lemma ATenGroupFApartInside0()
    ensures forall i, j | 0 <= i < 8 && i < j < |ATenGroupF| && j != i + 1 :: ATenGroupF[i].value != ATenGroupF[j].value
  {
  }

  lemma ATenGroupFApartInside1()
    ensures forall i, j | 8 <= i < 16 && i < j < |ATenGroupF| && j != i + 1 :: ATenGroupF[i].value != ATenGroupF[j].value
  {
  }

  lemma ATenGroupFApartInside2()
    ensures forall i, j | 16 <= i < 24 && i < j < |ATenGroupF| && j != i + 1 :: ATenGroupF[i].value != ATenGroupF[j].value
  {
  }

  lemma ATenGroupFApartInside()
    ensures forall i, j | 0 <= i < j < |ATenGroupF| && j != i + 1 :: ATenGroupF[i].value != ATenGroupF[j].value
  {
    ATenGroupFApartInside0();
    ATenGroupFApartInside1();
    ATenGroupFApartInside2();
  }

  lemma ATenGroupFNeighbours()
    ensures forall i | 0 < i < |ATenGroupF| && i != 12 && i != 14 :: ATenGroupF[i - 1].value != ATenGroupF[i].value
  {
  }

  lemma ATenGroupFTwinsAt12()
    ensures Twins(ATenGroupF[11].name, ATenGroupF[12].name)
  {
    assert ATenGroupF[11].name == "aten::glu";
    assert ATenGroupF[12].name == "aten::glu_";
    assert Twins("aten::glu", "aten::glu_");
  }

  lemma ATenGroupFTwinsAt14()
    ensures Twins(ATenGroupF[13].name, ATenGroupF[14].name)
  {
    assert ATenGroupF[13].name == "aten::masked_fill";
    assert ATenGroupF[14].name == "aten::masked_fill_";
    assert Twins("aten::masked_fill", "aten::masked_fill_");
  }

  /** Lines 142-165. */
  lemma ATenGroupFShared()
    ensures SharedByTwinsOnly(ATenGroupF)
  {
    ATenGroupFApartInside();
    ATenGroupFNeighbours();
    ATenGroupFTwinsAt12();
    ATenGroupFTwinsAt14();
  }

  lemma ATenGroupGApartInside0()
    ensures forall i, j | 0 <= i < 7 && i < j < |ATenGroupG| && j != i + 1 :: ATenGroupG[i].value != ATenGroupG[j].value
  {
  }

  lemma ATenGroupGApartInside1()
    ensures forall i, j | 7 <= i < 14 && i < j < |ATenGroupG| && j != i + 1 :: ATenGroupG[i].value != ATenGroupG[j].value
  {
  }

  lemma ATenGroupGApartInside2()
    ensures forall i, j | 14 <= i < 21 && i < j < |ATenGroupG| && j != i + 1 :: ATenGroupG[i].value != ATenGroupG[j].value
  {
  }

  lemma ATenGroupGApartInside()
    ensures forall i, j | 0 <= i < j < |ATenGroupG| && j != i + 1 :: ATenGroupG[i].value != ATenGroupG[j].value
  {
    ATenGroupGApartInside0();
    ATenGroupGApartInside1();
    ATenGroupGApartInside2();
  }

  lemma ATenGroupGNeighbours()
    ensures forall i | 0 < i < |ATenGroupG| && i != 19 :: ATenGroupG[i - 1].value != ATenGroupG[i].value
  {
  }

  lemma ATenGroupGTwinsAt19()
    ensures Twins(ATenGroupG[18].name, ATenGroupG[19].name)
  {
    assert ATenGroupG[18].name == "aten::index_put";
    assert ATenGroupG[19].name == "aten::index_put_";
    assert Twins("aten::index_put", "aten::index_put_");
  }

  /** Lines 166-186. */
  lemma ATenGroupGShared()
    ensures SharedByTwinsOnly(ATenGroupG)
  {
    ATenGroupGApartInside();
    ATenGroupGNeighbours();
    ATenGroupGTwinsAt19();
  }

  lemma ATenGroupAApartB0()
    ensures forall i, j | 0 <= i < 8 && 0 <= j < |ATenGroupB| :: ATenGroupA[i].value != ATenGroupB[j].value
  {
  }

  lemma ATenGroupAApartB1()
    ensures forall i, j | 8 <= i < 16 && 0 <= j < |ATenGroupB| :: ATenGroupA[i].value != ATenGroupB[j].value
  {
  }

  lemma ATenGroupAApartB2()
    ensures forall i, j | 16 <= i < 24 && 0 <= j < |ATenGroupB| :: ATenGroupA[i].value != ATenGroupB[j].value
  {
  }

  lemma ATenGroupAApartB()
    ensures ValuesApart(ATenGroupA, ATenGroupB)
  {
    ATenGroupAApartB0();
    ATenGroupAApartB1();
    ATenGroupAApartB2();
  }

  lemma ATenGroupAApartC0()
    ensures forall i, j | 0 <= i < 8 && 0 <= j < |ATenGroupC| :: ATenGroupA[i].value != ATenGroupC[j].value
  {
  }

  lemma ATenGroupAApartC1()
    ensures forall i, j | 8 <= i < 16 && 0 <= j < |ATenGroupC| :: ATenGroupA[i].value != ATenGroupC[j].value
  {
  }

  lemma ATenGroupAApartC2()
    ensures forall i, j | 16 <= i < 24 && 0 <= j < |ATenGroupC| :: ATenGroupA[i].value != ATenGroupC[j].value
  {
  }

  lemma ATenGroupAApartC()
    ensures ValuesApart(ATenGroupA, ATenGroupC)
  {
    ATenGroupAApartC0();
    ATenGroupAApartC1();
    ATenGroupAApartC2();
  }

  lemma ATenGroupAApartD0()
    ensures forall i, j | 0 <= i < 8 && 0 <= j < |ATenGroupD| :: ATenGroupA[i].value != ATenGroupD[j].value
  {
  }

  lemma ATenGroupAApartD1()
    ensures forall i, j | 8 <= i < 16 && 0 <= j < |ATenGroupD| :: ATenGroupA[i].value != ATenGroupD[j].value
  {
  }

  lemma ATenGroupAApartD2()
    ensures forall i, j | 16 <= i < 24 && 0 <= j < |ATenGroupD| :: ATenGroupA[i].value != ATenGroupD[j].value
  {
  }

  lemma ATenGroupAApartD()
    ensures ValuesApart(ATenGroupA, ATenGroupD)
  {
    ATenGroupAApartD0();
    ATenGroupAApartD1();
    ATenGroupAApartD2();
  }

  lemma ATenGroupAApartE0()
    ensures forall i, j | 0 <= i < 8 && 0 <= j < |ATenGroupE| :: ATenGroupA[i].value != ATenGroupE[j].value
  {
  }

  lemma ATenGroupAApartE1()
    ensures forall i, j | 8 <= i < 16 && 0 <= j < |ATenGroupE| :: ATenGroupA[i].value != ATenGroupE[j].value
  {
  }

  lemma ATenGroupAApartE2()
    ensures forall i, j | 16 <= i < 24 && 0 <= j < |ATenGroupE| :: ATenGroupA[i].value != ATenGroupE[j].value
  {
  }

  lemma ATenGroupAApartE()
    ensures ValuesApart(ATenGroupA, ATenGroupE)
  {
    ATenGroupAApartE0();
    ATenGroupAApartE1();
    ATenGroupAApartE2();
  }

  lemma ATenGroupAApartF0()
    ensures forall i, j | 0 <= i < 8 && 0 <= j < |ATenGroupF| :: ATenGroupA[i].value != ATenGroupF[j].value
  {
  }

  lemma ATenGroupAApartF1()
    ensures forall i, j | 8 <= i < 16 && 0 <= j < |ATenGroupF| :: ATenGroupA[i].value != ATenGroupF[j].value
  {
  }

  lemma ATenGroupAApartF2()
    ensures forall i, j | 16 <= i < 24 && 0 <= j < |ATenGroupF| :: ATenGroupA[i].value != ATenGroupF[j].value
  {
  }

  lemma ATenGroupAApartF()
    ensures ValuesApart(ATenGroupA, ATenGroupF)
  {
    ATenGroupAApartF0();
    ATenGroupAApartF1();
    ATenGroupAApartF2();
  }

  lemma ATenGroupAApartG0()
    ensures forall i, j | 0 <= i < 8 && 0 <= j < |ATenGroupG| :: ATenGroupA[i].value != ATenGroupG[j].value
  {
  }

  lemma ATenGroupAApartG1()
    ensures forall i, j | 8 <= i < 16 && 0 <= j < |ATenGroupG| :: ATenGroupA[i].value != ATenGroupG[j].value
  {
  }

  lemma ATenGroupAApartG2()
    ensures forall i, j | 16 <= i < 24 && 0 <= j < |ATenGroupG| :: ATenGroupA[i].value != ATenGroupG[j].value
  {
  }

  lemma ATenGroupAApartG()
    ensures ValuesApart(ATenGroupA, ATenGroupG)
  {
    ATenGroupAApartG0();
    ATenGroupAApartG1();
    ATenGroupAApartG2();
  }

  lemma ATenGroupBApartC0()
    ensures forall i, j | 0 <= i < 8 && 0 <= j < |ATenGroupC| :: ATenGroupB[i].value != ATenGroupC[j].value
  {
  }

  lemma ATenGroupBApartC1()
    ensures forall i, j | 8 <= i < 16 && 0 <= j < |ATenGroupC| :: ATenGroupB[i].value != ATenGroupC[j].value
  {
  }

  lemma ATenGroupBApartC2()
    ensures forall i, j | 16 <= i < 24 && 0 <= j < |ATenGroupC| :: ATenGroupB[i].value != ATenGroupC[j].value
  {
  }

  lemma ATenGroupBApartC()
    ensures ValuesApart(ATenGroupB, ATenGroupC)
  {
    ATenGroupBApartC0();
    ATenGroupBApartC1();
    ATenGroupBApartC2();
  }

  lemma ATenGroupBApartD0()
    ensures forall i, j | 0 <= i < 8 && 0 <= j < |ATenGroupD| :: ATenGroupB[i].value != ATenGroupD[j].value
  {
  }

  lemma ATenGroupBApartD1()
    ensures forall i, j | 8 <= i < 16 && 0 <= j < |ATenGroupD| :: ATenGroupB[i].value != ATenGroupD[j].value
  {
  }

  lemma ATenGroupBApartD2()
    ensures forall i, j | 16 <= i < 24 && 0 <= j < |ATenGroupD| :: ATenGroupB[i].value != ATenGroupD[j].value
  {
  }

  lemma ATenGroupBApartD()
    ensures ValuesApart(ATenGroupB, ATenGroupD)
  {
    ATenGroupBApartD0();
    ATenGroupBApartD1();
    ATenGroupBApartD2();
  }

  lemma ATenGroupBApartE0()
    ensures forall i, j | 0 <= i < 8 && 0 <= j < |ATenGroupE| :: ATenGroupB[i].value != ATenGroupE[j].value
  {
  }

  lemma ATenGroupBApartE1()
    ensures forall i, j | 8 <= i < 16 && 0 <= j < |ATenGroupE| :: ATenGroupB[i].value != ATenGroupE[j].value
  {
  }

  lemma ATenGroupBApartE2()
    ensures forall i, j | 16 <= i < 24 && 0 <= j < |ATenGroupE| :: ATenGroupB[i].value != ATenGroupE[j].value
  {
  }

  lemma ATenGroupBApartE()
    ensures ValuesApart(ATenGroupB, ATenGroupE)
  {
    ATenGroupBApartE0();
    ATenGroupBApartE1();
    ATenGroupBApartE2();
  }

  lemma ATenGroupBApartF0()
    ensures forall i, j | 0 <= i < 8 && 0 <= j < |ATenGroupF| :: ATenGroupB[i].value != ATenGroupF[j].value
  {
  }

  lemma ATenGroupBApartF1()
    ensures forall i, j | 8 <= i < 16 && 0 <= j < |ATenGroupF| :: ATenGroupB[i].value != ATenGroupF[j].value
  {
  }

  lemma ATenGroupBApartF2()
    ensures forall i, j | 16 <= i < 24 && 0 <= j < |ATenGroupF| :: ATenGroupB[i].value != ATenGroupF[j].value
  {
  }

  lemma ATenGroupBApartF()
    ensures ValuesApart(ATenGroupB, ATenGroupF)
  {
    ATenGroupBApartF0();
    ATenGroupBApartF1();
    ATenGroupBApartF2();
  }

  lemma ATenGroupBApartG0()
    ensures forall i, j | 0 <= i < 8 && 0 <= j < |ATenGroupG| :: ATenGroupB[i].value != ATenGroupG[j].value
  {
  }

  lemma ATenGroupBApartG1()
    ensures forall i, j | 8 <= i < 16 && 0 <= j < |ATenGroupG| :: ATenGroupB[i].value != ATenGroupG[j].value
  {
  }

  lemma ATenGroupBApartG2()
    ensures forall i, j | 16 <= i < 24 && 0 <= j < |ATenGroupG| :: ATenGroupB[i].value != ATenGroupG[j].value
  {
  }

  lemma ATenGroupBApartG()
    ensures ValuesApart(ATenGroupB, ATenGroupG)
  {
    ATenGroupBApartG0();
    ATenGroupBApartG1();
    ATenGroupBApartG2();
  }

  lemma ATenGroupCApartD0()
    ensures forall i, j | 0 <= i < 8 && 0 <= j < |ATenGroupD| :: ATenGroupC[i].value != ATenGroupD[j].value
  {
  }

  lemma ATenGroupCApartD1()
    ensures forall i, j | 8 <= i < 16 && 0 <= j < |ATenGroupD| :: ATenGroupC[i].value != ATenGroupD[j].value
  {
  }

  lemma ATenGroupCApartD2()
    ensures forall i, j | 16 <= i < 24 && 0 <= j < |ATenGroupD| :: ATenGroupC[i].value != ATenGroupD[j].value
  {
  }

  lemma ATenGroupCApartD()
    ensures ValuesApart(ATenGroupC, ATenGroupD)
  {
    ATenGroupCApartD0();
    ATenGroupCApartD1();
    ATenGroupCApartD2();
  }

  lemma ATenGroupCApartE0()
    ensures forall i, j | 0 <= i < 8 && 0 <= j < |ATenGroupE| :: ATenGroupC[i].value != ATenGroupE[j].value
  {
  }

  lemma ATenGroupCApartE1()
    ensures forall i, j | 8 <= i < 16 && 0 <= j < |ATenGroupE| :: ATenGroupC[i].value != ATenGroupE[j].value
  {
  }

  lemma ATenGroupCApartE2()
    ensures forall i, j | 16 <= i < 24 && 0 <= j < |ATenGroupE| :: ATenGroupC[i].value != ATenGroupE[j].value
  {
  }

  lemma ATenGroupCApartE()
    ensures ValuesApart(ATenGroupC, ATenGroupE)
  {
    ATenGroupCApartE0();
    ATenGroupCApartE1();
    ATenGroupCApartE2();
  }

  lemma ATenGroupCApartF0()
    ensures forall i, j | 0 <= i < 8 && 0 <= j < |ATenGroupF| :: ATenGroupC[i].value != ATenGroupF[j].value
  {
  }

  lemma ATenGroupCApartF1()
    ensures forall i, j | 8 <= i < 16 && 0 <= j < |ATenGroupF| :: ATenGroupC[i].value != ATenGroupF[j].value
  {
  }

  lemma ATenGroupCApartF2()
    ensures forall i, j | 16 <= i < 24 && 0 <= j < |ATenGroupF| :: ATenGroupC[i].value != ATenGroupF[j].value
  {
  }

  lemma ATenGroupCApartF()
    ensures ValuesApart(ATenGroupC, ATenGroupF)
  {
    ATenGroupCApartF0();
    ATenGroupCApartF1();
    ATenGroupCApartF2();
  }

  lemma ATenGroupCApartG0()
    ensures forall i, j | 0 <= i < 8 && 0 <= j < |ATenGroupG| :: ATenGroupC[i].value != ATenGroupG[j].value
  {
  }

  lemma ATenGroupCApartG1()
    ensures forall i, j | 8 <= i < 16 && 0 <= j < |ATenGroupG| :: ATenGroupC[i].value != ATenGroupG[j].value
  {
  }

  lemma ATenGroupCApartG2()
    ensures forall i, j | 16 <= i < 24 && 0 <= j < |ATenGroupG| :: ATenGroupC[i].value != ATenGroupG[j].value
  {
  }

  lemma ATenGroupCApartG()
    ensures ValuesApart(ATenGroupC, ATenGroupG)
  {
    ATenGroupCApartG0();
    ATenGroupCApartG1();
    ATenGroupCApartG2();
  }

  lemma ATenGroupDApartE0()
    ensures forall i, j | 0 <= i < 8 && 0 <= j < |ATenGroupE| :: ATenGroupD[i].value != ATenGroupE[j].value
  {
  }

  lemma ATenGroupDApartE1()
    ensures forall i, j | 8 <= i < 16 && 0 <= j < |ATenGroupE| :: ATenGroupD[i].value != ATenGroupE[j].value
  {
  }

  lemma ATenGroupDApartE2()
    ensures forall i, j | 16 <= i < 24 && 0 <= j < |ATenGroupE| :: ATenGroupD[i].value != ATenGroupE[j].value
  {
  }

  lemma ATenGroupDApartE()
    ensures ValuesApart(ATenGroupD, ATenGroupE)
  {
    ATenGroupDApartE0();
    ATenGroupDApartE1();
    ATenGroupDApartE2();
  }

  lemma ATenGroupDApartF0()
    ensures forall i, j | 0 <= i < 8 && 0 <= j < |ATenGroupF| :: ATenGroupD[i].value != ATenGroupF[j].value
  {
  }

  lemma ATenGroupDApartF1()
    ensures forall i, j | 8 <= i < 16 && 0 <= j < |ATenGroupF| :: ATenGroupD[i].value != ATenGroupF[j].value
  {
  }

  lemma ATenGroupDApartF2()
    ensures forall i, j | 16 <= i < 24 && 0 <= j < |ATenGroupF| :: ATenGroupD[i].value != ATenGroupF[j].value
  {
  }

  lemma ATenGroupDApartF()
    ensures ValuesApart(ATenGroupD, ATenGroupF)
  {
    ATenGroupDApartF0();
    ATenGroupDApartF1();
    ATenGroupDApartF2();
  }

  lemma ATenGroupDApartG0()
    ensures forall i, j | 0 <= i < 8 && 0 <= j < |ATenGroupG| :: ATenGroupD[i].value != ATenGroupG[j].value
  {
  }

  lemma ATenGroupDApartG1()
    ensures forall i, j | 8 <= i < 16 && 0 <= j < |ATenGroupG| :: ATenGroupD[i].value != ATenGroupG[j].value
  {
  }

  lemma ATenGroupDApartG2()
    ensures forall i, j | 16 <= i < 24 && 0 <= j < |ATenGroupG| :: ATenGroupD[i].value != ATenGroupG[j].value
  {
  }

  lemma ATenGroupDApartG()
    ensures ValuesApart(ATenGroupD, ATenGroupG)
  {
    ATenGroupDApartG0();
    ATenGroupDApartG1();
    ATenGroupDApartG2();
  }

  lemma ATenGroupEApartF0()
    ensures forall i, j | 0 <= i < 8 && 0 <= j < |ATenGroupF| :: ATenGroupE[i].value != ATenGroupF[j].value
  {
  }

  lemma ATenGroupEApartF1()
    ensures forall i, j | 8 <= i < 16 && 0 <= j < |ATenGroupF| :: ATenGroupE[i].value != ATenGroupF[j].value
  {
  }

  lemma ATenGroupEApartF2()
    ensures forall i, j | 16 <= i < 24 && 0 <= j < |ATenGroupF| :: ATenGroupE[i].value != ATenGroupF[j].value
  {
  }

  lemma ATenGroupEApartF()
    ensures ValuesApart(ATenGroupE, ATenGroupF)
  {
    ATenGroupEApartF0();
    ATenGroupEApartF1();
    ATenGroupEApartF2();
  }

  lemma ATenGroupEApartG0()
    ensures forall i, j | 0 <= i < 8 && 0 <= j < |ATenGroupG| :: ATenGroupE[i].value != ATenGroupG[j].value
  {
  }

  lemma ATenGroupEApartG1()
    ensures forall i, j | 8 <= i < 16 && 0 <= j < |ATenGroupG| :: ATenGroupE[i].value != ATenGroupG[j].value
  {
  }

  lemma ATenGroupEApartG2()
    ensures forall i, j | 16 <= i < 24 && 0 <= j < |ATenGroupG| :: ATenGroupE[i].value != ATenGroupG[j].value
  {
  }

  lemma ATenGroupEApartG()
    ensures ValuesApart(ATenGroupE, ATenGroupG)
  {
    ATenGroupEApartG0();
    ATenGroupEApartG1();
    ATenGroupEApartG2();
  }

  lemma ATenGroupFApartG0()
    ensures forall i, j | 0 <= i < 8 && 0 <= j < |ATenGroupG| :: ATenGroupF[i].value != ATenGroupG[j].value
  {
  }

  lemma ATenGroupFApartG1()
    ensures forall i, j | 8 <= i < 16 && 0 <= j < |ATenGroupG| :: ATenGroupF[i].value != ATenGroupG[j].value
  {
  }

  lemma ATenGroupFApartG2()
    ensures forall i, j | 16 <= i < 24 && 0 <= j < |ATenGroupG| :: ATenGroupF[i].value != ATenGroupG[j].value
  {
  }

  lemma ATenGroupFApartG()
    ensures ValuesApart(ATenGroupF, ATenGroupG)
  {
    ATenGroupFApartG0();
    ATenGroupFApartG1();
    ATenGroupFApartG2();
  }

  /** The tensor group, lines 22-186. */
  lemma ATenGroupShared()
    ensures SharedByTwinsOnly(ATenGroup)
  {
    ATenGroupAShared();
    var s := ATenGroupA;
    ATenGroupBShared();
    ATenGroupAApartB();
    SharedConcat(s, ATenGroupB);
    s := s + ATenGroupB;
    ATenGroupCShared();
    ATenGroupAApartC();
    ATenGroupBApartC();
    ApartConcat(ATenGroupA, ATenGroupB, ATenGroupC);
    SharedConcat(s, ATenGroupC);
    s := s + ATenGroupC;
    ATenGroupDShared();
    ATenGroupAApartD();
    ATenGroupBApartD();
    ATenGroupCApartD();
    ApartConcat(ATenGroupA, ATenGroupB, ATenGroupD);
    ApartConcat(ATenGroupA + ATenGroupB, ATenGroupC, ATenGroupD);
    SharedConcat(s, ATenGroupD);
    s := s + ATenGroupD;
    ATenGroupEShared();
    ATenGroupAApartE();
    ATenGroupBApartE();
    ATenGroupCApartE();
    ATenGroupDApartE();
    ApartConcat(ATenGroupA, ATenGroupB, ATenGroupE);
    ApartConcat(ATenGroupA + ATenGroupB, ATenGroupC, ATenGroupE);
    ApartConcat(ATenGroupA + ATenGroupB + ATenGroupC, ATenGroupD, ATenGroupE);
    SharedConcat(s, ATenGroupE);
    s := s + ATenGroupE;
    ATenGroupFShared();
    ATenGroupAApartF();
    ATenGroupBApartF();
    ATenGroupCApartF();
    ATenGroupDApartF();
    ATenGroupEApartF();
    ApartConcat(ATenGroupA, ATenGroupB, ATenGroupF);
    ApartConcat(ATenGroupA + ATenGroupB, ATenGroupC, ATenGroupF);
    ApartConcat(ATenGroupA + ATenGroupB + ATenGroupC, ATenGroupD, ATenGroupF);
    ApartConcat(ATenGroupA + ATenGroupB + ATenGroupC + ATenGroupD, ATenGroupE, ATenGroupF);
    SharedConcat(s, ATenGroupF);
    s := s + ATenGroupF;
    ATenGroupGShared();
    ATenGroupAApartG();
    ATenGroupBApartG();
    ATenGroupCApartG();
    ATenGroupDApartG();
    ATenGroupEApartG();
    ATenGroupFApartG();
    ApartConcat(ATenGroupA, ATenGroupB, ATenGroupG);
    ApartConcat(ATenGroupA + ATenGroupB, ATenGroupC, ATenGroupG);
    ApartConcat(ATenGroupA + ATenGroupB + ATenGroupC, ATenGroupD, ATenGroupG);
    ApartConcat(ATenGroupA + ATenGroupB + ATenGroupC + ATenGroupD, ATenGroupE, ATenGroupG);
    ApartConcat(ATenGroupA + ATenGroupB + ATenGroupC + ATenGroupD + ATenGroupE, ATenGroupF, ATenGroupG);
    SharedConcat(s, ATenGroupG);
    s := s + ATenGroupG;
  }

  lemma PrimGroupDistinct0()
    ensures forall i, j | 0 <= i < 4 && i < j < |PrimGroup| :: PrimGroup[i].value != PrimGroup[j].value
  {
  }

  lemma PrimGroupDistinct1()
    ensures forall i, j | 4 <= i < 7 && i < j < |PrimGroup| :: PrimGroup[i].value != PrimGroup[j].value
  {
  }

  lemma PrimGroupDistinct2()
    ensures forall i, j | 7 <= i < 11 && i < j < |PrimGroup| :: PrimGroup[i].value != PrimGroup[j].value
  {
  }

  /** The structural group, lines 10-20: every key has a class of its own. */
  lemma PrimGroupDistinct()
    ensures DistinctValues(PrimGroup)
  {
    PrimGroupDistinct0();
    PrimGroupDistinct1();
    PrimGroupDistinct2();
  }

  lemma QuantizedGroupADistinct0()
    ensures forall i, j | 0 <= i < 5 && i < j < |QuantizedGroupA| :: QuantizedGroupA[i].value != QuantizedGroupA[j].value
  {
  }

  lemma QuantizedGroupADistinct1()
    ensures forall i, j | 5 <= i < 9 && i < j < |QuantizedGroupA| :: QuantizedGroupA[i].value != QuantizedGroupA[j].value
  {
  }

  lemma QuantizedGroupADistinct2()
    ensures forall i, j | 9 <= i < 14 && i < j < |QuantizedGroupA| :: QuantizedGroupA[i].value != QuantizedGroupA[j].value
  {
  }

  lemma QuantizedGroupADistinct()
    ensures DistinctValues(QuantizedGroupA)
  {
    QuantizedGroupADistinct0();
    QuantizedGroupADistinct1();
    QuantizedGroupADistinct2();
  }

  lemma QuantizedGroupBDistinct0()
    ensures forall i, j | 0 <= i < 5 && i < j < |QuantizedGroupB| :: QuantizedGroupB[i].value != QuantizedGroupB[j].value
  {
  }

  lemma QuantizedGroupBDistinct1()
    ensures forall i, j | 5 <= i < 9 && i < j < |QuantizedGroupB| :: QuantizedGroupB[i].value != QuantizedGroupB[j].value
  {
  }

  lemma QuantizedGroupBDistinct2()
    ensures forall i, j | 9 <= i < 14 && i < j < |QuantizedGroupB| :: QuantizedGroupB[i].value != QuantizedGroupB[j].value
  {
  }

  lemma QuantizedGroupBDistinct()
    ensures DistinctValues(QuantizedGroupB)
  {
    QuantizedGroupBDistinct0();
    QuantizedGroupBDistinct1();
    QuantizedGroupBDistinct2();
  }

  lemma QuantizedGroupsApart0()
    ensures forall i, j | 0 <= i < 5 && 0 <= j < |QuantizedGroupB| :: QuantizedGroupA[i].value != QuantizedGroupB[j].value
  {
  }

  lemma QuantizedGroupsApart1()
    ensures forall i, j | 5 <= i < 9 && 0 <= j < |QuantizedGroupB| :: QuantizedGroupA[i].value != QuantizedGroupB[j].value
  {
  }

  lemma QuantizedGroupsApart2()
    ensures forall i, j | 9 <= i < 14 && 0 <= j < |QuantizedGroupB| :: QuantizedGroupA[i].value != QuantizedGroupB[j].value
  {
  }

  lemma QuantizedGroupsApart()
    ensures ValuesApart(QuantizedGroupA, QuantizedGroupB)
  {
    QuantizedGroupsApart0();
    QuantizedGroupsApart1();
    QuantizedGroupsApart2();
  }

  /** The quantized group, lines 188-215: every key has a class of its own. */
  lemma QuantizedGroupDistinct()
    ensures DistinctValues(QuantizedGroup)
  {
    QuantizedGroupADistinct();
    QuantizedGroupBDistinct();
    QuantizedGroupsApart();
    DistinctValuesConcat(QuantizedGroupA, QuantizedGroupB);
  }

  /** The whole literal. */
  lemma LinesShared()
    ensures SharedByTwinsOnly(Lines)
  {
    GroupCategories();
    PrimGroupDistinct();
    DistinctShared(PrimGroup);
    ATenGroupShared();
    QuantizedGroupDistinct();
    DistinctShared(QuantizedGroup);
    NonTrackingShared(NonTrackingGroup);
    CategoriesApart(PrimGroup, ATenGroup, Structural, Tensor);
    SharedConcat(PrimGroup, ATenGroup);
    CategoriesApart(PrimGroup, QuantizedGroup, Structural, Quantization);
    CategoriesApart(ATenGroup, QuantizedGroup, Tensor, Quantization);
    ApartConcat(PrimGroup, ATenGroup, QuantizedGroup);
    SharedConcat(PrimGroup + ATenGroup, QuantizedGroup);
    GenericApart(PrimGroup, NonTrackingGroup, Structural);
    GenericApart(ATenGroup, NonTrackingGroup, Tensor);
    GenericApart(QuantizedGroup, NonTrackingGroup, Quantization);
    ApartConcat(PrimGroup, ATenGroup, NonTrackingGroup);
    ApartConcat(PrimGroup + ATenGroup, QuantizedGroup, NonTrackingGroup);
    SharedConcat(PrimGroup + ATenGroup + QuantizedGroup, NonTrackingGroup);
  }
}
