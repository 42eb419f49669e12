/**
 * The facts the registry literal promises its users, stated on `Lookup` and
 * proved from the per-group facts.
 */
module RegistryFacts {
  import opened Wrappers
  import opened DictLiteral
  import opened LengthIndex
  import opened Converters
  import opened Registry
  import opened NameIndex
  import opened GroupFacts
  import opened SharingFacts

  /**
   * No key is written on two lines of the literal, so no line is overwritten
   * by a later one: the dict has exactly one key per entry line and every
   * line's converter is the one the dict holds.
   */
  lemma NoDuplicateKeys()
    ensures DistinctNames(Lines)
    ensures |OperatorConverterDict| == |Lines| == 216
    ensures forall i | 0 <= i < |Lines| ::
              Lines[i].name in OperatorConverterDict && OperatorConverterDict[Lines[i].name] == Lines[i].value
  {
    ByLengthIndexesLines();
    IndexedLines(Lines, ByLength, KeyLengthBound);
    DistinctDictOf(Lines);
    LineCount();
  }

  /** A name looks up a converter exactly when a line of the literal pairs the two. */
  lemma LookupExact(name: string, c: Converter)
    ensures Lookup(name) == Some(c) <==> Entry(name, c) in Lines
  {
    if Entry(name, c) in Lines {
      NoDuplicateKeys();
      var i :| 0 <= i < |Lines| && Lines[i] == Entry(name, c);
      assert Lookup(name).Some?;
      assert Lookup(name).value == OperatorConverterDict[name];
    }
  }

  /** A line of the literal is a line of one of its four groups, and has that group's shape. */
  lemma LineInGroups(e: Line)
    requires e in Lines
    ensures e in PrimGroup || e in ATenGroup || e in QuantizedGroup || e in NonTrackingGroup
    ensures e in PrimGroup ==> StructuralLine(e)
    ensures e in ATenGroup ==> TensorLine(e)
    ensures e in QuantizedGroup ==> QuantizedLine(e)
    ensures e in NonTrackingGroup ==> NonTrackingLine(e)
  {
    PrimGroupShape();
    ATenGroupFacts();
    QuantizedGroupFacts();
    NonTrackingGroupShape();
  }

  /** A line of the literal is what looking its key up gives. */
  lemma KeyOf(e: Line)
    requires e in Lines
    ensures Lookup(e.name) == Some(e.value)
  {
    LookupExact(e.name, e.value);
  }

  // Namespaces

  /** `Qualify` puts a name in the namespace it is given. */
  lemma QualifiedInNamespace(ns: string, op: string)
    requires op != ""
    ensures InNamespace(Qualify(ns, op), ns)
  {
    assert Qualify(ns, op)[..|ns + "::"|] == ns + "::";
  }

  /** Two names in different namespaces among `prim`, `aten` and `quantized` differ. */
  lemma NamespacesApart(name: string)
    ensures !(InNamespace(name, "prim") && InNamespace(name, "aten"))
    ensures !(InNamespace(name, "prim") && InNamespace(name, "quantized"))
    ensures !(InNamespace(name, "aten") && InNamespace(name, "quantized"))
  {
    assert "prim" + "::" == "prim::" && "aten" + "::" == "aten::" && "quantized" + "::" == "quantized::";
    if InNamespace(name, "prim") {
      assert name[0] == "prim::"[0];
    }
    if InNamespace(name, "aten") {
      assert name[0] == "aten::"[0];
    }
  }

  /** What the namespace of a key says about its converter. */
  predicate Qualified(e: Line)
  {
    && (InNamespace(e.name, "prim") || InNamespace(e.name, "aten") || InNamespace(e.name, "quantized"))
    && (InNamespace(e.name, "prim") ==> e.value.Prim?)
    && (InNamespace(e.name, "quantized") ==> e.value.Quantized?)
    && (e.value.Prim? ==> InNamespace(e.name, "prim") || e.name in {"aten::__getitem__", "aten::len"})
    && (e.value.ATen? || e.value == TrackConstantOperator || e.value == NoTrackOperator ==> InNamespace(e.name, "aten"))
  }

  /** A line of any of the four groups is qualified. */
  lemma GroupLineQualified(e: Line)
    requires StructuralLine(e) || TensorLine(e) || QuantizedLine(e) || NonTrackingLine(e)
    ensures Qualified(e)
  {
    assert "prim" + "::" == "prim::" && "aten" + "::" == "aten::" && "quantized" + "::" == "quantized::";
    assert HasPrefix("aten::__getitem__", "aten::") && HasPrefix("aten::len", "aten::");
    NamespacesApart(e.name);
    if HasPrefix(e.name, "prim::") {
      assert e.name[0] == 'p';
    } else if HasPrefix(e.name, "quantized::") {
      assert e.name[0] == 'q';
    } else if HasPrefix(e.name, "aten::") {
      assert e.name[0] == 'a';
    }
  }

  /**
   * Every key is `prim::op`, `aten::op` or `quantized::op`; a `prim::` key maps
   * to a structural `Prim*` converter and a `quantized::` key to a quantization
   * converter; the structural converters are reached only through `prim::` keys
   * and `aten::__getitem__` and `aten::len`; the tensor converters and the two
   * generic handlers only through `aten::` keys.
   */
  lemma KeyNamespaces(name: string)
    requires Lookup(name).Some?
    ensures Qualified(Entry(name, Lookup(name).value))
  {
    var e := Entry(name, Lookup(name).value);
    LineInGroups(e);
    GroupLineQualified(e);
  }

  /** A name outside the three namespaces, such as a bare `add`, has no converter. */
  lemma UnqualifiedNotKey(name: string)
    requires !InNamespace(name, "prim") && !InNamespace(name, "aten") && !InNamespace(name, "quantized")
    ensures Lookup(name) == None
  {
    if Lookup(name).Some? {
      KeyNamespaces(name);
    }
  }

  // Exact-match dispatch

  lemma AddEntries()
    ensures ATenGroupB[14] == Entry("aten::add", ATen(ATenAddOperator))
    ensures QuantizedGroupB[4] == Entry("quantized::add", Quantized(QuantizedAddOperator))
  {
  }

  /** The `aten` and `quantized` keys of `add`. */
  lemma AddKeys()
    ensures Lookup("aten::add") == Some(ATen(ATenAddOperator))
    ensures Lookup("quantized::add") == Some(Quantized(QuantizedAddOperator))
  {
    AddEntries();
    assert ATenGroupB[14] in ATenGroupB;
    KeyOf(ATenGroupB[14]);
    assert QuantizedGroupB[4] in QuantizedGroupB;
    KeyOf(QuantizedGroupB[4]);
  }

  lemma CatEntries()
    ensures ATenGroupC[16] == Entry("aten::cat", ATen(ATenCatOperator))
    ensures QuantizedGroupB[0] == Entry("quantized::cat", Quantized(QuantizedCatOperator))
  {
  }

  /** The `aten` and `quantized` keys of `cat`. */
  lemma CatKeys()
    ensures Lookup("aten::cat") == Some(ATen(ATenCatOperator))
    ensures Lookup("quantized::cat") == Some(Quantized(QuantizedCatOperator))
  {
    CatEntries();
    assert ATenGroupC[16] in ATenGroupC;
    KeyOf(ATenGroupC[16]);
    assert QuantizedGroupB[0] in QuantizedGroupB;
    KeyOf(QuantizedGroupB[0]);
  }

  lemma LinearEntries()
    ensures ATenGroupC[20] == Entry("aten::linear", ATen(ATenLinearOperator))
    ensures QuantizedGroupA[9] == Entry("quantized::linear", Quantized(QuantizedLinearOperator))
  {
  }

  /** The `aten` and `quantized` keys of `linear`. */
  lemma LinearKeys()
    ensures Lookup("aten::linear") == Some(ATen(ATenLinearOperator))
    ensures Lookup("quantized::linear") == Some(Quantized(QuantizedLinearOperator))
  {
    LinearEntries();
    assert ATenGroupC[20] in ATenGroupC;
    KeyOf(ATenGroupC[20]);
    assert QuantizedGroupA[9] in QuantizedGroupA;
    KeyOf(QuantizedGroupA[9]);
  }

  /** `add` qualified by `aten` and by `quantized` lies in each namespace and reaches two different converters. */
  lemma DispatchAdd()
    ensures Lookup(Qualify("aten", "add")) == Some(ATen(ATenAddOperator))
    ensures Lookup(Qualify("quantized", "add")) == Some(Quantized(QuantizedAddOperator))
    ensures InNamespace(Qualify("aten", "add"), "aten") && InNamespace(Qualify("quantized", "add"), "quantized")
  {
    assert Qualify("aten", "add") == "aten::add" && Qualify("quantized", "add") == "quantized::add";
    AddKeys();
    QualifiedInNamespace("aten", "add");
    QualifiedInNamespace("quantized", "add");
  }

  /** `cat` qualified by `aten` and by `quantized` lies in each namespace and reaches two different converters. */
  lemma DispatchCat()
    ensures Lookup(Qualify("aten", "cat")) == Some(ATen(ATenCatOperator))
    ensures Lookup(Qualify("quantized", "cat")) == Some(Quantized(QuantizedCatOperator))
    ensures InNamespace(Qualify("aten", "cat"), "aten") && InNamespace(Qualify("quantized", "cat"), "quantized")
  {
    assert Qualify("aten", "cat") == "aten::cat" && Qualify("quantized", "cat") == "quantized::cat";
    CatKeys();
    QualifiedInNamespace("aten", "cat");
    QualifiedInNamespace("quantized", "cat");
  }

  /** `linear` qualified by `aten` and by `quantized` lies in each namespace and reaches two different converters. */
  lemma DispatchLinear()
    ensures Lookup(Qualify("aten", "linear")) == Some(ATen(ATenLinearOperator))
    ensures Lookup(Qualify("quantized", "linear")) == Some(Quantized(QuantizedLinearOperator))
    ensures InNamespace(Qualify("aten", "linear"), "aten") && InNamespace(Qualify("quantized", "linear"), "quantized")
  {
    assert Qualify("aten", "linear") == "aten::linear" && Qualify("quantized", "linear") == "quantized::linear";
    LinearKeys();
    QualifiedInNamespace("aten", "linear");
    QualifiedInNamespace("quantized", "linear");
  }

  /** The bare operator names are not keys: lookup does no namespace search. */
  lemma BareNamesNotKeys()
    ensures Lookup("add") == None && Lookup("cat") == None && Lookup("linear") == None
  {
    UnqualifiedNotKey("add");
    UnqualifiedNotKey("cat");
    UnqualifiedNotKey("linear");
  }

  // Ground facts about single keys

  lemma StructuralKeysRegistered0Entries()
    ensures PrimGroup[0] == Entry("prim::Constant", Prim(PrimConstantConverter))
    ensures PrimGroup[1] == Entry("prim::TupleConstruct", Prim(PrimTupleConstructConverter))
  {
  }

  /** Lines 10-11. */
  lemma StructuralKeysRegistered0()
    ensures Lookup("prim::Constant") == Some(Prim(PrimConstantConverter))
    ensures Lookup("prim::TupleConstruct") == Some(Prim(PrimTupleConstructConverter))
  {
    StructuralKeysRegistered0Entries();
    assert PrimGroup[0] in PrimGroup;
    KeyOf(PrimGroup[0]);
    assert PrimGroup[1] in PrimGroup;
    KeyOf(PrimGroup[1]);
  }

  lemma StructuralKeysRegistered1Entries()
    ensures PrimGroup[2] == Entry("prim::ListConstruct", Prim(PrimListConstructConverter))
    ensures PrimGroup[3] == Entry("prim::DictConstruct", Prim(PrimDictConstructConverter))
  {
  }

  /** Lines 12-13. */
  lemma StructuralKeysRegistered1()
    ensures Lookup("prim::ListConstruct") == Some(Prim(PrimListConstructConverter))
    ensures Lookup("prim::DictConstruct") == Some(Prim(PrimDictConstructConverter))
  {
    StructuralKeysRegistered1Entries();
    assert PrimGroup[2] in PrimGroup;
    KeyOf(PrimGroup[2]);
    assert PrimGroup[3] in PrimGroup;
    KeyOf(PrimGroup[3]);
  }

  lemma StructuralKeysRegistered2Entries()
    ensures PrimGroup[4] == Entry("prim::ListUnpack", Prim(PrimListUnpackConverter))
    ensures PrimGroup[5] == Entry("prim::GetAttr", Prim(PrimGetAttrConverter))
  {
  }

  /** Lines 14-15. */
  lemma StructuralKeysRegistered2()
    ensures Lookup("prim::ListUnpack") == Some(Prim(PrimListUnpackConverter))
    ensures Lookup("prim::GetAttr") == Some(Prim(PrimGetAttrConverter))
  {
    StructuralKeysRegistered2Entries();
    assert PrimGroup[4] in PrimGroup;
    KeyOf(PrimGroup[4]);
    assert PrimGroup[5] in PrimGroup;
    KeyOf(PrimGroup[5]);
  }

  lemma StructuralKeysRegistered3Entries()
    ensures PrimGroup[6] == Entry("prim::ConstantChunk", Prim(PrimConstantChunkConverter))
    ensures PrimGroup[7] == Entry("prim::NumToTensor", Prim(PrimNumToTensorConverter))
  {
  }

  /** Lines 16-17. */
  lemma StructuralKeysRegistered3()
    ensures Lookup("prim::ConstantChunk") == Some(Prim(PrimConstantChunkConverter))
    ensures Lookup("prim::NumToTensor") == Some(Prim(PrimNumToTensorConverter))
  {
    StructuralKeysRegistered3Entries();
    assert PrimGroup[6] in PrimGroup;
    KeyOf(PrimGroup[6]);
    assert PrimGroup[7] in PrimGroup;
    KeyOf(PrimGroup[7]);
  }

  lemma StructuralKeysRegistered4Entries()
    ensures PrimGroup[8] == Entry("prim::If", Prim(PrimIfConverter))
    ensures PrimGroup[9] == Entry("aten::__getitem__", Prim(PrimGetItemConverter))
  {
  }

  /** Lines 18-19. */
  lemma StructuralKeysRegistered4()
    ensures Lookup("prim::If") == Some(Prim(PrimIfConverter))
    ensures Lookup("aten::__getitem__") == Some(Prim(PrimGetItemConverter))
  {
    StructuralKeysRegistered4Entries();
    assert PrimGroup[8] in PrimGroup;
    KeyOf(PrimGroup[8]);
    assert PrimGroup[9] in PrimGroup;
    KeyOf(PrimGroup[9]);
  }

  lemma StructuralKeysRegistered5Entries()
    ensures PrimGroup[10] == Entry("aten::len", Prim(PrimLenConverter))
  {
  }

  /** Lines 20-20. */
  lemma StructuralKeysRegistered5()
    ensures Lookup("aten::len") == Some(Prim(PrimLenConverter))
  {
    StructuralKeysRegistered5Entries();
    assert PrimGroup[10] in PrimGroup;
    KeyOf(PrimGroup[10]);
  }

  lemma TrackConstantKeysRegistered0Entries()
    ensures NonTrackingGroup[0] == Entry("aten::Int", TrackConstantOperator)
    ensures NonTrackingGroup[11] == Entry("aten::ScalarImplicit", TrackConstantOperator)
  {
  }

  /** Lines 217 and 228. */
  lemma TrackConstantKeysRegistered0()
    ensures Lookup("aten::Int") == Some(TrackConstantOperator)
    ensures Lookup("aten::ScalarImplicit") == Some(TrackConstantOperator)
  {
    TrackConstantKeysRegistered0Entries();
    assert NonTrackingGroup[0] in NonTrackingGroup;
    KeyOf(NonTrackingGroup[0]);
    assert NonTrackingGroup[11] in NonTrackingGroup;
    KeyOf(NonTrackingGroup[11]);
  }

  lemma NoTrackKeysRegistered0Entries()
    ensures NonTrackingGroup[1] == Entry("aten::zeros", NoTrackOperator)
    ensures NonTrackingGroup[2] == Entry("aten::detach", NoTrackOperator)
  {
  }

  /** Lines 218-219. */
  lemma NoTrackKeysRegistered0()
    ensures Lookup("aten::zeros") == Some(NoTrackOperator)
    ensures Lookup("aten::detach") == Some(NoTrackOperator)
  {
    NoTrackKeysRegistered0Entries();
    assert NonTrackingGroup[1] in NonTrackingGroup;
    KeyOf(NonTrackingGroup[1]);
    assert NonTrackingGroup[2] in NonTrackingGroup;
    KeyOf(NonTrackingGroup[2]);
  }

  lemma NoTrackKeysRegistered1Entries()
    ensures NonTrackingGroup[3] == Entry("aten::size", NoTrackOperator)
    ensures NonTrackingGroup[4] == Entry("aten::arange", NoTrackOperator)
  {
  }

  /** Lines 220-221. */
  lemma NoTrackKeysRegistered1()
    ensures Lookup("aten::size") == Some(NoTrackOperator)
    ensures Lookup("aten::arange") == Some(NoTrackOperator)
  {
    NoTrackKeysRegistered1Entries();
    assert NonTrackingGroup[3] in NonTrackingGroup;
    KeyOf(NonTrackingGroup[3]);
    assert NonTrackingGroup[4] in NonTrackingGroup;
    KeyOf(NonTrackingGroup[4]);
  }

  lemma NoTrackKeysRegistered2Entries()
    ensures NonTrackingGroup[5] == Entry("aten::ones", NoTrackOperator)
    ensures NonTrackingGroup[6] == Entry("aten::ones_like", NoTrackOperator)
  {
  }

  /** Lines 222-223. */
  lemma NoTrackKeysRegistered2()
    ensures Lookup("aten::ones") == Some(NoTrackOperator)
    ensures Lookup("aten::ones_like") == Some(NoTrackOperator)
  {
    NoTrackKeysRegistered2Entries();
    assert NonTrackingGroup[5] in NonTrackingGroup;
    KeyOf(NonTrackingGroup[5]);
    assert NonTrackingGroup[6] in NonTrackingGroup;
    KeyOf(NonTrackingGroup[6]);
  }

  lemma NoTrackKeysRegistered3Entries()
    ensures NonTrackingGroup[7] == Entry("aten::zeros_like", NoTrackOperator)
    ensures NonTrackingGroup[8] == Entry("aten::empty", NoTrackOperator)
  {
  }

  /** Lines 224-225. */
  lemma NoTrackKeysRegistered3()
    ensures Lookup("aten::zeros_like") == Some(NoTrackOperator)
    ensures Lookup("aten::empty") == Some(NoTrackOperator)
  {
    NoTrackKeysRegistered3Entries();
    assert NonTrackingGroup[7] in NonTrackingGroup;
    KeyOf(NonTrackingGroup[7]);
    assert NonTrackingGroup[8] in NonTrackingGroup;
    KeyOf(NonTrackingGroup[8]);
  }

  lemma NoTrackKeysRegistered4Entries()
    ensures NonTrackingGroup[9] == Entry("aten::new_zeros", NoTrackOperator)
    ensures NonTrackingGroup[10] == Entry("aten::new_ones", NoTrackOperator)
  {
  }

  /** Lines 226-227. */
  lemma NoTrackKeysRegistered4()
    ensures Lookup("aten::new_zeros") == Some(NoTrackOperator)
    ensures Lookup("aten::new_ones") == Some(NoTrackOperator)
  {
    NoTrackKeysRegistered4Entries();
    assert NonTrackingGroup[9] in NonTrackingGroup;
    KeyOf(NonTrackingGroup[9]);
    assert NonTrackingGroup[10] in NonTrackingGroup;
    KeyOf(NonTrackingGroup[10]);
  }

  lemma ReluKeysEntries()
    ensures ATenGroupA[4] == Entry("aten::relu", ATen(ATenReluOperator))
    ensures ATenGroupA[5] == Entry("aten::relu_", ATen(ATenReluOperator))
  {
  }

  /** Lines 26-27. */
  lemma ReluKeys()
    ensures Lookup("aten::relu") == Some(ATen(ATenReluOperator))
    ensures Lookup("aten::relu_") == Some(ATen(ATenReluOperator))
  {
    ReluKeysEntries();
    assert ATenGroupA[4] in ATenGroupA;
    KeyOf(ATenGroupA[4]);
    assert ATenGroupA[5] in ATenGroupA;
    KeyOf(ATenGroupA[5]);
  }

  lemma AddInPlaceKeysEntries()
    ensures ATenGroupB[14] == Entry("aten::add", ATen(ATenAddOperator))
    ensures ATenGroupB[15] == Entry("aten::add_", ATen(ATenAddOperator))
  {
  }

  /** Lines 60-61. */
  lemma AddInPlaceKeys()
    ensures Lookup("aten::add") == Some(ATen(ATenAddOperator))
    ensures Lookup("aten::add_") == Some(ATen(ATenAddOperator))
  {
    AddInPlaceKeysEntries();
    assert ATenGroupB[14] in ATenGroupB;
    KeyOf(ATenGroupB[14]);
    assert ATenGroupB[15] in ATenGroupB;
    KeyOf(ATenGroupB[15]);
  }

  lemma MaskedFillKeysEntries()
    ensures ATenGroupF[13] == Entry("aten::masked_fill", ATen(ATenMaskedFillOperator))
    ensures ATenGroupF[14] == Entry("aten::masked_fill_", ATen(ATenMaskedFillOperator))
  {
  }

  /** Lines 155-156. */
  lemma MaskedFillKeys()
    ensures Lookup("aten::masked_fill") == Some(ATen(ATenMaskedFillOperator))
    ensures Lookup("aten::masked_fill_") == Some(ATen(ATenMaskedFillOperator))
  {
    MaskedFillKeysEntries();
    assert ATenGroupF[13] in ATenGroupF;
    KeyOf(ATenGroupF[13]);
    assert ATenGroupF[14] in ATenGroupF;
    KeyOf(ATenGroupF[14]);
  }

  lemma IndexPutKeysEntries()
    ensures ATenGroupG[18] == Entry("aten::index_put", ATen(ATenIndexPutOperator))
    ensures ATenGroupG[19] == Entry("aten::index_put_", ATen(ATenIndexPutOperator))
  {
  }

  /** Lines 184-185. */
  lemma IndexPutKeys()
    ensures Lookup("aten::index_put") == Some(ATen(ATenIndexPutOperator))
    ensures Lookup("aten::index_put_") == Some(ATen(ATenIndexPutOperator))
  {
    IndexPutKeysEntries();
    assert ATenGroupG[18] in ATenGroupG;
    KeyOf(ATenGroupG[18]);
    assert ATenGroupG[19] in ATenGroupG;
    KeyOf(ATenGroupG[19]);
  }

  lemma ChunkKeysEntries()
    ensures ATenGroupC[17] == Entry("aten::chunk", ATen(ATenChunkOperator))
    ensures ATenGroupC[18] == Entry("aten::unsafe_chunk", ATen(ATenChunkOperator))
  {
  }

  /** Lines 87-88. */
  lemma ChunkKeys()
    ensures Lookup("aten::chunk") == Some(ATen(ATenChunkOperator))
    ensures Lookup("aten::unsafe_chunk") == Some(ATen(ATenChunkOperator))
  {
    ChunkKeysEntries();
    assert ATenGroupC[17] in ATenGroupC;
    KeyOf(ATenGroupC[17]);
    assert ATenGroupC[18] in ATenGroupC;
    KeyOf(ATenGroupC[18]);
  }

  lemma QuantizedConv2dKeysEntries()
    ensures QuantizedGroupA[7] == Entry("quantized::conv2d", Quantized(QuantizedConv2dOperator))
    ensures QuantizedGroupA[8] == Entry("quantized::conv2d_relu", Quantized(QuantizedConv2dReluOperator))
  {
  }

  /** Lines 195-196. */
  lemma QuantizedConv2dKeys()
    ensures Lookup("quantized::conv2d") == Some(Quantized(QuantizedConv2dOperator))
    ensures Lookup("quantized::conv2d_relu") == Some(Quantized(QuantizedConv2dReluOperator))
  {
    QuantizedConv2dKeysEntries();
    assert QuantizedGroupA[7] in QuantizedGroupA;
    KeyOf(QuantizedGroupA[7]);
    assert QuantizedGroupA[8] in QuantizedGroupA;
    KeyOf(QuantizedGroupA[8]);
  }

  lemma QuantizedLinearReluKeysEntries()
    ensures QuantizedGroupA[10] == Entry("quantized::linear_relu", Quantized(QuantizedLinearReluOperator))
  {
  }

  /** Lines 198-198. */
  lemma QuantizedLinearReluKeys()
    ensures Lookup("quantized::linear_relu") == Some(Quantized(QuantizedLinearReluOperator))
  {
    QuantizedLinearReluKeysEntries();
    assert QuantizedGroupA[10] in QuantizedGroupA;
    KeyOf(QuantizedGroupA[10]);
  }

  lemma QuantizedBatchNorm2dKeysEntries()
    ensures QuantizedGroupB[2] == Entry("quantized::batch_norm2d", Quantized(QuantizedBatchNorm2dOperator))
    ensures QuantizedGroupB[3] == Entry("quantized::batch_norm2d_relu", Quantized(QuantizedBatchNorm2dReluOperator))
  {
  }

  /** Lines 204-205. */
  lemma QuantizedBatchNorm2dKeys()
    ensures Lookup("quantized::batch_norm2d") == Some(Quantized(QuantizedBatchNorm2dOperator))
    ensures Lookup("quantized::batch_norm2d_relu") == Some(Quantized(QuantizedBatchNorm2dReluOperator))
  {
    QuantizedBatchNorm2dKeysEntries();
    assert QuantizedGroupB[2] in QuantizedGroupB;
    KeyOf(QuantizedGroupB[2]);
    assert QuantizedGroupB[3] in QuantizedGroupB;
    KeyOf(QuantizedGroupB[3]);
  }

  lemma QuantizedAddReluKeysEntries()
    ensures QuantizedGroupB[5] == Entry("quantized::add_relu", Quantized(QuantizedAddReluOperator))
  {
  }

  /** Lines 207-207. */
  lemma QuantizedAddReluKeys()
    ensures Lookup("quantized::add_relu") == Some(Quantized(QuantizedAddReluOperator))
  {
    QuantizedAddReluKeysEntries();
    assert QuantizedGroupB[5] in QuantizedGroupB;
    KeyOf(QuantizedGroupB[5]);
  }

  lemma GetitemKeyEntries()
    ensures PrimGroup[9] == Entry("aten::__getitem__", Prim(PrimGetItemConverter))
  {
  }

  /** Line 19. */
  lemma GetitemKey()
    ensures Lookup("aten::__getitem__") == Some(Prim(PrimGetItemConverter))
  {
    GetitemKeyEntries();
    assert PrimGroup[9] in PrimGroup;
    KeyOf(PrimGroup[9]);
  }

  /** `aten::__getitem_` is not a key. */
  lemma GetitemBaseAbsent()
    ensures Lookup("aten::__getitem_") == None
  {
    Keys16Cover();
    assert "aten::__getitem_" !in Keys16;
  }

  lemma CopyKeyEntries()
    ensures ATenGroupE[20] == Entry("aten::copy_", ATen(ATenCopyOperator))
  {
  }

  /** Line 138. */
  lemma CopyKey()
    ensures Lookup("aten::copy_") == Some(ATen(ATenCopyOperator))
  {
    CopyKeyEntries();
    assert ATenGroupE[20] in ATenGroupE;
    KeyOf(ATenGroupE[20]);
  }

  /** `aten::copy` is not a key. */
  lemma CopyBaseAbsent()
    ensures Lookup("aten::copy") == None
  {
    Keys10Cover();
    assert "aten::copy" !in Keys10;
  }

  lemma AndKeyEntries()
    ensures ATenGroupF[3] == Entry("aten::__and__", ATen(ATenAndOperator))
  {
  }

  /** Line 145. */
  lemma AndKey()
    ensures Lookup("aten::__and__") == Some(ATen(ATenAndOperator))
  {
    AndKeyEntries();
    assert ATenGroupF[3] in ATenGroupF;
    KeyOf(ATenGroupF[3]);
  }

  /** `aten::__and_` is not a key. */
  lemma AndBaseAbsent()
    ensures Lookup("aten::__and_") == None
  {
    Keys12Cover();
    assert "aten::__and_" !in Keys12;
  }

  lemma OrKeyEntries()
    ensures ATenGroupF[4] == Entry("aten::__or__", ATen(ATenOrOperator))
  {
  }

  /** Line 146. */
  lemma OrKey()
    ensures Lookup("aten::__or__") == Some(ATen(ATenOrOperator))
  {
    OrKeyEntries();
    assert ATenGroupF[4] in ATenGroupF;
    KeyOf(ATenGroupF[4]);
  }

  /** `aten::__or_` is not a key. */
  lemma OrBaseAbsent()
    ensures Lookup("aten::__or_") == None
  {
    Keys11Cover();
    assert "aten::__or_" !in Keys11;
  }

  lemma FillKeyEntries()
    ensures ATenGroupG[2] == Entry("aten::fill_", ATen(ATenFillOperator))
  {
  }

  /** Line 168. */
  lemma FillKey()
    ensures Lookup("aten::fill_") == Some(ATen(ATenFillOperator))
  {
    FillKeyEntries();
    assert ATenGroupG[2] in ATenGroupG;
    KeyOf(ATenGroupG[2]);
  }

  /** `aten::fill` is not a key. */
  lemma FillBaseAbsent()
    ensures Lookup("aten::fill") == None
  {
    Keys10Cover();
    assert "aten::fill" !in Keys10;
  }

  lemma ScatterKeyEntries()
    ensures ATenGroupG[7] == Entry("aten::scatter_", ATen(ATenScatterOperator))
  {
  }

  /** Line 173. */
  lemma ScatterKey()
    ensures Lookup("aten::scatter_") == Some(ATen(ATenScatterOperator))
  {
    ScatterKeyEntries();
    assert ATenGroupG[7] in ATenGroupG;
    KeyOf(ATenGroupG[7]);
  }

  /** `aten::scatter` is not a key. */
  lemma ScatterBaseAbsent()
    ensures Lookup("aten::scatter") == None
  {
    Keys13Cover();
    assert "aten::scatter" !in Keys13;
  }

  // In-place aliases

  lemma GetitemOrphan()
    ensures IsInPlace("aten::__getitem__") && Lookup("aten::__getitem__").Some? && Lookup(Base("aten::__getitem__")) == None
  {
    GetitemKey();
    GetitemBaseAbsent();
    assert Base("aten::__getitem__") == "aten::__getitem_";
  }

  lemma CopyOrphan()
    ensures IsInPlace("aten::copy_") && Lookup("aten::copy_").Some? && Lookup(Base("aten::copy_")) == None
  {
    CopyKey();
    CopyBaseAbsent();
    assert Base("aten::copy_") == "aten::copy";
  }

  lemma AndOrphan()
    ensures IsInPlace("aten::__and__") && Lookup("aten::__and__").Some? && Lookup(Base("aten::__and__")) == None
  {
    AndKey();
    AndBaseAbsent();
    assert Base("aten::__and__") == "aten::__and_";
  }

  lemma OrOrphan()
    ensures IsInPlace("aten::__or__") && Lookup("aten::__or__").Some? && Lookup(Base("aten::__or__")) == None
  {
    OrKey();
    OrBaseAbsent();
    assert Base("aten::__or__") == "aten::__or_";
  }

  lemma FillOrphan()
    ensures IsInPlace("aten::fill_") && Lookup("aten::fill_").Some? && Lookup(Base("aten::fill_")) == None
  {
    FillKey();
    FillBaseAbsent();
    assert Base("aten::fill_") == "aten::fill";
  }

  lemma ScatterOrphan()
    ensures IsInPlace("aten::scatter_") && Lookup("aten::scatter_").Some? && Lookup(Base("aten::scatter_")) == None
  {
    ScatterKey();
    ScatterBaseAbsent();
    assert Base("aten::scatter_") == "aten::scatter";
  }

  lemma OrphanFirstHalf(name: string)
    requires name in {"aten::__getitem__", "aten::copy_", "aten::__and__"}
    ensures IsInPlace(name) && Lookup(name).Some? && Lookup(Base(name)) == None
  {
    if name == "aten::__getitem__" {
      GetitemOrphan();
    } else if name == "aten::copy_" {
      CopyOrphan();
    } else {
      AndOrphan();
    }
  }

  lemma OrphanSecondHalf(name: string)
    requires name in {"aten::__or__", "aten::fill_", "aten::scatter_"}
    ensures IsInPlace(name) && Lookup(name).Some? && Lookup(Base(name)) == None
  {
    if name == "aten::__or__" {
      OrOrphan();
    } else if name == "aten::fill_" {
      FillOrphan();
    } else {
      ScatterOrphan();
    }
  }

  /** The six orphans are in-place keys whose base key is not registered. */
  lemma OrphanKeys()
    ensures forall name | name in Orphans :: IsInPlace(name) && Lookup(name).Some? && Lookup(Base(name)) == None
  {
    forall name | name in Orphans
      ensures IsInPlace(name) && Lookup(name).Some? && Lookup(Base(name)) == None
    {
      if name in {"aten::__getitem__", "aten::copy_", "aten::__and__"} {
        OrphanFirstHalf(name);
      } else {
        OrphanSecondHalf(name);
      }
    }
  }

  /**
   * An in-place key `X_` whose base key `X` is registered maps to the same
   * converter as `X`; the base key is missing exactly for the six orphans.
   */
  lemma InPlaceAliasAgrees(name: string)
    requires IsInPlace(name) && Lookup(name).Some?
    ensures Lookup(Base(name)).None? <==> name in Orphans
    ensures Lookup(Base(name)).Some? ==> Lookup(Base(name)) == Lookup(name)
  {
    var v := Lookup(name).value;
    var i :| 0 <= i < |Lines| && Lines[i] == Entry(name, v);
    LinesFollowBase();
    if name in Orphans {
      OrphanKeys();
    } else {
      assert Lines[i - 1] == Entry(Base(name), v);
      KeyOf(Lines[i - 1]);
    }
  }

  /** Four of the in-place keys, each with the converter of its base key. */
  lemma InPlaceExamples()
    ensures Lookup("aten::relu_") == Lookup("aten::relu") == Some(ATen(ATenReluOperator))
    ensures Lookup("aten::add_") == Lookup("aten::add") == Some(ATen(ATenAddOperator))
    ensures Lookup("aten::masked_fill_") == Lookup("aten::masked_fill") == Some(ATen(ATenMaskedFillOperator))
    ensures Lookup("aten::index_put_") == Lookup("aten::index_put") == Some(ATen(ATenIndexPutOperator))
  {
    ReluKeys();
    AddInPlaceKeys();
    MaskedFillKeys();
    IndexPutKeys();
  }

  // Sharing of converters

  /**
   * Two different keys share a converter other than the two generic handlers
   * only when one is the in-place form of the other, or when they are
   * `aten::chunk` and `aten::unsafe_chunk`.
   */
  lemma SharingIsLimited(n1: string, n2: string)
    requires Lookup(n1).Some? && Lookup(n1) == Lookup(n2) && n1 != n2
    requires !Generic(Lookup(n1).value)
    ensures n2 == n1 + "_" || n1 == n2 + "_"
         || (n1 == "aten::chunk" && n2 == "aten::unsafe_chunk")
         || (n1 == "aten::unsafe_chunk" && n2 == "aten::chunk")
  {
    var v := Lookup(n1).value;
    LinesShared();
    SharedPair(Lines, Entry(n1, v), Entry(n2, v));
  }

  /** `aten::chunk` and `aten::unsafe_chunk` do share their converter. */
  lemma ChunkShared()
    ensures Lookup("aten::chunk") == Lookup("aten::unsafe_chunk") == Some(ATen(ATenChunkOperator))
  {
    ChunkKeys();
  }

  /** The category of a line's converter tells which group the line belongs to. */
  lemma CategoryGroup(e: Line)
    requires e in Lines
    ensures CategoryOf(e.value) == Structural ==> e in PrimGroup
    ensures CategoryOf(e.value) == Quantization ==> e in QuantizedGroup
    ensures Generic(e.value) ==> e in NonTrackingGroup
  {
    GroupCategories();
    GroupOfCategory(PrimGroup, ATenGroup, QuantizedGroup, NonTrackingGroup, e);
  }

  /** In a group whose converters are pairwise different, a converter is on one line only. */
  lemma UniqueInGroup(group: seq<Line>, e1: Line, e2: Line)
    requires DistinctValues(group) && e1 in group && e2 in group && e1.value == e2.value
    ensures e1 == e2
  {
    var p :| 0 <= p < |group| && group[p] == e1;
    var q :| 0 <= q < |group| && group[q] == e2;
    if p < q || q < p {
      assert false;
    }
  }

  /** A structural converter is reached by one key only. */
  lemma StructuralUnshared(n1: string, n2: string)
    requires Lookup(n1).Some? && Lookup(n1).value.Prim? && Lookup(n1) == Lookup(n2)
    ensures n1 == n2
  {
    var v := Lookup(n1).value;
    CategoryGroup(Entry(n1, v));
    CategoryGroup(Entry(n2, v));
    PrimGroupDistinct();
    UniqueInGroup(PrimGroup, Entry(n1, v), Entry(n2, v));
  }

  /**
   * A quantization converter is reached by one key only: the fused operators
   * such as `quantized::add_relu` are keys of their own, not aliases.
   */
  lemma QuantizedUnshared(n1: string, n2: string)
    requires Lookup(n1).Some? && Lookup(n1).value.Quantized? && Lookup(n1) == Lookup(n2)
    ensures n1 == n2
  {
    var v := Lookup(n1).value;
    CategoryGroup(Entry(n1, v));
    CategoryGroup(Entry(n2, v));
    QuantizedGroupDistinct();
    UniqueInGroup(QuantizedGroup, Entry(n1, v), Entry(n2, v));
  }

  /** Each fused quantized key has a converter of its own, apart from the unfused key's. */
  lemma FusedQuantizedSeparate()
    ensures Lookup("quantized::conv2d_relu") == Some(Quantized(QuantizedConv2dReluOperator))
    ensures Lookup("quantized::conv2d") == Some(Quantized(QuantizedConv2dOperator))
    ensures Lookup("quantized::linear_relu") == Some(Quantized(QuantizedLinearReluOperator))
    ensures Lookup("quantized::linear") == Some(Quantized(QuantizedLinearOperator))
    ensures Lookup("quantized::add_relu") == Some(Quantized(QuantizedAddReluOperator))
    ensures Lookup("quantized::add") == Some(Quantized(QuantizedAddOperator))
    ensures Lookup("quantized::batch_norm2d_relu") == Some(Quantized(QuantizedBatchNorm2dReluOperator))
    ensures Lookup("quantized::batch_norm2d") == Some(Quantized(QuantizedBatchNorm2dOperator))
  {
    QuantizedConv2dKeys();
    QuantizedLinearReluKeys();
    LinearKeys();
    QuantizedAddReluKeys();
    AddKeys();
    QuantizedBatchNorm2dKeys();
  }

  // Categories

  /** The keys of the structural handlers: the nine `prim::` keys, `aten::__getitem__` and `aten::len`. */
  const StructuralKeys: set<string> := {
    "prim::Constant", "prim::TupleConstruct", "prim::ListConstruct",
    "prim::DictConstruct", "prim::ListUnpack", "prim::GetAttr",
    "prim::ConstantChunk", "prim::NumToTensor", "prim::If",
    "aten::__getitem__", "aten::len"
  }

  /** The keys folded into compile-time constants. */
  const TrackConstantKeys: set<string> := {"aten::Int", "aten::ScalarImplicit"}

  /** The keys whose nodes are skipped. */
  const NoTrackKeys: set<string> := {
    "aten::zeros", "aten::detach", "aten::size",
    "aten::arange", "aten::ones", "aten::ones_like",
    "aten::zeros_like", "aten::empty", "aten::new_zeros",
    "aten::new_ones"
  }

  /** There are eleven structural keys. */
  lemma StructuralKeysSize()
    ensures |StructuralKeys| == 11
  {
  }

  /** There are two constant-tracking keys. */
  lemma TrackConstantKeysSize()
    ensures |TrackConstantKeys| == 2
  {
  }

  /** There are ten non-tracking keys. */
  lemma NoTrackKeysSize()
    ensures |NoTrackKeys| == 10
  {
  }

  /** Every structural key maps to a structural converter. */
  lemma StructuralKeysMapToPrim()
    ensures forall name | name in StructuralKeys :: Lookup(name).Some? && CategoryOf(Lookup(name).value) == Structural
  {
    forall name | name in StructuralKeys
      ensures Lookup(name).Some? && CategoryOf(Lookup(name).value) == Structural
    {
      if name in {"prim::Constant", "prim::TupleConstruct"} {
        StructuralKeysRegistered0();
      } else if name in {"prim::ListConstruct", "prim::DictConstruct"} {
        StructuralKeysRegistered1();
      } else if name in {"prim::ListUnpack", "prim::GetAttr"} {
        StructuralKeysRegistered2();
      } else if name in {"prim::ConstantChunk", "prim::NumToTensor"} {
        StructuralKeysRegistered3();
      } else if name in {"prim::If", "aten::__getitem__"} {
        StructuralKeysRegistered4();
      } else {
        StructuralKeysRegistered5();
      }
    }
  }

  /** Both constant-tracking keys map to `TrackConstantOperator`, the one converter of its category. */
  lemma TrackConstantKeysMap()
    ensures forall name | name in TrackConstantKeys :: Lookup(name).Some? && CategoryOf(Lookup(name).value) == TrackConstant
  {
    TrackConstantKeysRegistered0();
  }

  lemma NoTrackKeysPart0(name: string)
    requires name in {"aten::zeros", "aten::detach", "aten::size", "aten::arange", "aten::ones", "aten::ones_like"}
    ensures Lookup(name).Some? && CategoryOf(Lookup(name).value) == NoTrack
  {
    if name in {"aten::zeros", "aten::detach"} {
      NoTrackKeysRegistered0();
    } else if name in {"aten::size", "aten::arange"} {
      NoTrackKeysRegistered1();
    } else {
      NoTrackKeysRegistered2();
    }
  }

  lemma NoTrackKeysPart1(name: string)
    requires name in {"aten::zeros_like", "aten::empty", "aten::new_zeros", "aten::new_ones"}
    ensures Lookup(name).Some? && CategoryOf(Lookup(name).value) == NoTrack
  {
    if name in {"aten::zeros_like", "aten::empty"} {
      NoTrackKeysRegistered3();
    } else {
      NoTrackKeysRegistered4();
    }
  }

  /** Every non-tracking key maps to `NoTrackOperator`, the one converter of its category. */
  lemma NoTrackKeysMap()
    ensures forall name | name in NoTrackKeys :: Lookup(name).Some? && CategoryOf(Lookup(name).value) == NoTrack
  {
    forall name | name in NoTrackKeys
      ensures Lookup(name).Some? && CategoryOf(Lookup(name).value) == NoTrack
    {
      if name in {"aten::zeros", "aten::detach", "aten::size", "aten::arange", "aten::ones", "aten::ones_like"} {
        NoTrackKeysPart0(name);
      } else {
        NoTrackKeysPart1(name);
      }
    }
  }

  /** The structural group's keys are the structural keys. */
  lemma PrimGroupNames()
    ensures forall j | 0 <= j < |PrimGroup| :: PrimGroup[j].name in StructuralKeys
  {
  }

  /** The non-tracking group's keys are sorted by their handler. */
  lemma NonTrackingGroupNames()
    ensures forall j | 0 <= j < |NonTrackingGroup| ::
              (NonTrackingGroup[j].value == TrackConstantOperator ==> NonTrackingGroup[j].name in TrackConstantKeys) &&
              (NonTrackingGroup[j].value == NoTrackOperator ==> NonTrackingGroup[j].name in NoTrackKeys)
  {
  }

  /** A key reaches a structural converter exactly when it is a structural key. */
  lemma StructuralCategory(name: string)
    ensures Lookup(name).Some? && CategoryOf(Lookup(name).value) == Structural <==> name in StructuralKeys
  {
    if Lookup(name).Some? && CategoryOf(Lookup(name).value) == Structural {
      CategoryGroup(Entry(name, Lookup(name).value));
      PrimGroupNames();
    }
    StructuralKeysMapToPrim();
  }

  /** Exactly the two constant-tracking keys reach `TrackConstantOperator`. */
  lemma TrackConstantCategory(name: string)
    ensures Lookup(name).Some? && CategoryOf(Lookup(name).value) == TrackConstant <==> name in TrackConstantKeys
  {
    if Lookup(name).Some? && CategoryOf(Lookup(name).value) == TrackConstant {
      CategoryGroup(Entry(name, Lookup(name).value));
      NonTrackingGroupNames();
    }
    TrackConstantKeysMap();
  }

  /** Exactly the ten non-tracking keys reach `NoTrackOperator`. */
  lemma NoTrackCategory(name: string)
    ensures Lookup(name).Some? && CategoryOf(Lookup(name).value) == NoTrack <==> name in NoTrackKeys
  {
    if Lookup(name).Some? && CategoryOf(Lookup(name).value) == NoTrack {
      CategoryGroup(Entry(name, Lookup(name).value));
      NonTrackingGroupNames();
    }
    NoTrackKeysMap();
  }
}
