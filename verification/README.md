# TinyNN operator converter registry

TinyNN's PyTorch-to-TFLite converter walks a TorchScript graph. For each node it
looks up the node's qualified operator kind, such as `aten::add` or
`quantized::conv2d_relu`, in one static table, `OPERATOR_CONVERTER_DICT`. The
table is a Python dict display of 216 `"name": ConverterClass` lines in four
groups:

- the structural `prim` handlers;
- the tensor `aten` handlers;
- the quantized handlers;
- the "non tracking" handlers, `TrackConstantOperator` and `NoTrackOperator`. As
  their names suggest, the first tracks its node as a constant and the second does
  not track it; their bodies are not part of this model.

This project models that table and proves what it promises to the dispatcher.

- `DictLiteral` (dict_literal.dfy) gives a dict display its Python meaning:
  `DictOf` inserts the lines in order, so a repeated key keeps its last value.
  It also proves the facts about that fold that the rest of the model relies on.
- `Converters` (converters.dfy) has one opaque tag per converter class, named as
  in the source, and the category of each (`CategoryOf`).
- `Registry` (registry.dfy) holds the literal line by line, in source order, in
  eleven blocks. It also defines:
  - `OperatorConverterDict`, the table the literal evaluates to;
  - `Lookup`, exact-match lookup returning an `Option`;
  - the name helpers `IsInPlace`, `Base`, `InPlace`, `Qualify` and `InNamespace`.
- `LengthIndex` (length_index.dfy) is a generic counting argument. It shows that
  no key is written twice from an index of line positions by key length.
  `NameIndex` (name_index.dfy) is that index for this literal, with the keys of
  each length spelled out.
- `GroupFacts` (group_facts.dfy) and `SharingFacts` (sharing_facts.dfy) prove
  facts group by group and glue them together. They cover:
  - the namespace shape of each group's keys;
  - the position of every in-place key right after its base key;
  - which lines share a converter.
- `RegistryFacts` (registry_facts.dfy) states the registry's properties on
  `Lookup`.

## Proof layout

The literal is held in eleven blocks of at most 28 lines: the prim group, the aten
group in seven blocks `ATenGroupA`-`ATenGroupG`, the quantized group in two and the
non-tracking group. Each fact is first proved block by block, on ranges of at
most twelve lines, and then carried to the whole literal by generic concatenation
lemmas (`TensorConcat`, `FollowsBaseConcat`, `SharedConcat`, `ApartConcat`). The
ground lemmas over concrete lines (`...Shape0`, `...Follows0a`, `...Apart...0`,
`...Entries`) are mechanical and repetitive by design: each asks the solver about
only a few literal lines, which keeps every proof obligation small.

No duplicate key is shown without comparing all 23,000 pairs of keys. `NameIndex`
lists, for each key length, the positions of the lines with keys of that length
(`At9`, ...) and spells those keys out (`Keys9`, ...). `KeysNApart` shows the keys
of one length pairwise different, and `KeysNPlacedK` that the listed positions hold
those keys. `LengthIndex.IndexedLines` then turns the index into `DistinctNames` by
counting: the index lists 216 distinct positions, all below 216, so every line is
listed once.

## Model

| member | source | states |
|---|---|---|
| Registry.LineCount | tinynn/converter/operators/torch/__init__.py:9-229 | The literal has 216 entry lines: lines 10-228, less the three group comment lines (21, 187, 216). |
| Registry.Lookup | tinynn/converter/operators/torch/__init__.py:9-229 | Looking a name up gives nothing exactly when no line of the literal carries that name; otherwise it gives a converter that some line pairs with the name. |
| DictLiteral.DictOf | tinynn/converter/operators/torch/__init__.py:9-229 | The dict a display evaluates to: its lines inserted in order, so a later line with the same key replaces the earlier value. Its properties are the lemmas below. |
| DictLiteral.DictOfSize | tinynn/converter/operators/torch/__init__.py:9-229 | The dict has at most one key per line. |
| Registry.IsInPlace | tinynn/converter/operators/torch/__init__.py:26-27 | A name is in-place when its last character is `_`, as `aten::relu_`. Its meaning is stated by `InPlaceShape`. |
| Registry.InPlaceShape | tinynn/converter/operators/torch/__init__.py:26-27 | An in-place name is some name followed by `_`, and no name followed by `_` is anything but in-place. |
| Converters.CategoryOf | tinynn/converter/operators/torch/__init__.py:10-228 | Sorts converters into the groups of the literal's comments: exactly the `Prim*` classes are structural, exactly the quantized-group classes are quantization handlers, and each generic handler is alone in its category. |
| Registry.Base | tinynn/converter/operators/torch/__init__.py:26-27 | For an in-place name `X_` the base is `X`, so `Base(n) + "_" == n`; any other name is its own base. |
| Registry.InPlace | tinynn/converter/operators/torch/__init__.py:60-61 | `X_` is an in-place name whose base is `X`, as `aten::add_` for `aten::add`. |
| DictLiteral.KeysOfDictOf | tinynn/converter/operators/torch/__init__.py:9-229 | A dict display has a key exactly when one of its lines names it. |
| DictLiteral.ValueFromALine | tinynn/converter/operators/torch/__init__.py:9-229 | The value a dict display holds for a key comes from a line with that key. |
| DictLiteral.LastLineWins | tinynn/converter/operators/torch/__init__.py:9-229 | A line whose key is not repeated further down keeps its value in the dict. |
| DictLiteral.DistinctDictOf | tinynn/converter/operators/torch/__init__.py:9-229 | When no key is repeated, the dict has one key per line and every line keeps its value. |
| LengthIndex.IndexedLines | tinynn/converter/operators/torch/__init__.py:10-228 | An index by key length that is in range, pairwise apart within each length and as large as the display lists every line, and no key is written twice (pigeonhole). |
| LengthIndex.CoveredBy | tinynn/converter/operators/torch/__init__.py:10-228 | With such an index, every key of a given length is among the keys listed under that length. |
| NameIndex.ByLengthIndexesLines | tinynn/converter/operators/torch/__init__.py:10-228 | The index of the literal's line positions by key length satisfies the counting argument's premises. |
| RegistryFacts.NoDuplicateKeys | tinynn/converter/operators/torch/__init__.py:9-229 | No key is written twice, so the dict has exactly 216 keys, one per line, and no line is overwritten by a later one. |
| RegistryFacts.LookupExact | tinynn/converter/operators/torch/__init__.py:9-229 | `Lookup(name) == Some(c)` holds exactly when a line of the literal pairs `name` with `c`. |
| RegistryFacts.KeyOf | tinynn/converter/operators/torch/__init__.py:10-228 | Looking up a line's key gives that line's converter. |
| RegistryFacts.LineInGroups | tinynn/converter/operators/torch/__init__.py:10-228 | Every line belongs to one of the four groups and has that group's shape. |
| RegistryFacts.QualifiedInNamespace | tinynn/converter/operators/torch/__init__.py:10-228 | `ns::op` with a non-empty `op` lies in namespace `ns`. |
| RegistryFacts.NamespacesApart | tinynn/converter/operators/torch/__init__.py:10-228 | No name is in two of the `prim`, `aten` and `quantized` namespaces. |
| RegistryFacts.GroupLineQualified | tinynn/converter/operators/torch/__init__.py:10-228 | A line of any group has a qualified key that agrees with its converter's kind. |
| RegistryFacts.KeyNamespaces | tinynn/converter/operators/torch/__init__.py:10-228 | Every key is `prim::op`, `aten::op` or `quantized::op`. A `prim::` key maps to a `Prim*` converter and a `quantized::` key to a quantized converter. `Prim*` converters are reached only through `prim::` keys, `aten::__getitem__` and `aten::len`. Tensor converters and the two generic handlers are reached only through `aten::` keys. |
| RegistryFacts.UnqualifiedNotKey | tinynn/converter/operators/torch/__init__.py:10-228 | A name outside the three namespaces has no converter. |
| RegistryFacts.BareNamesNotKeys | tinynn/converter/operators/torch/__init__.py:10-228 | The bare names `add`, `cat` and `linear` are not keys: there is no namespace search. |
| RegistryFacts.AddKeys | tinynn/converter/operators/torch/__init__.py:60-206 | `aten::add` gives `ATenAddOperator` and `quantized::add` gives `QuantizedAddOperator`. |
| RegistryFacts.CatKeys | tinynn/converter/operators/torch/__init__.py:86-202 | `aten::cat` gives `ATenCatOperator` and `quantized::cat` gives `QuantizedCatOperator`. |
| RegistryFacts.LinearKeys | tinynn/converter/operators/torch/__init__.py:90-197 | `aten::linear` gives `ATenLinearOperator` and `quantized::linear` gives `QuantizedLinearOperator`. |
| RegistryFacts.DispatchAdd | tinynn/converter/operators/torch/__init__.py:60-206 | `aten::add` and `quantized::add` lie in their namespaces and reach two different converters. |
| RegistryFacts.DispatchCat | tinynn/converter/operators/torch/__init__.py:86-202 | `aten::cat` and `quantized::cat` lie in their namespaces and reach two different converters. |
| RegistryFacts.DispatchLinear | tinynn/converter/operators/torch/__init__.py:90-197 | `aten::linear` and `quantized::linear` lie in their namespaces and reach two different converters. |
| RegistryFacts.InPlaceAliasAgrees | tinynn/converter/operators/torch/__init__.py:22-186 | An in-place key whose base key is registered maps to the base key's converter. The base key is missing exactly for the six orphans. |
| RegistryFacts.OrphanKeys | tinynn/converter/operators/torch/__init__.py:19-173 | `aten::__getitem__`, `aten::copy_`, `aten::__and__`, `aten::__or__`, `aten::fill_` and `aten::scatter_` end in `_`, are keys, and have no base key. |
| RegistryFacts.OrphanFirstHalf | tinynn/converter/operators/torch/__init__.py:19-145 | The orphan property for `aten::__getitem__`, `aten::copy_` and `aten::__and__`. |
| RegistryFacts.OrphanSecondHalf | tinynn/converter/operators/torch/__init__.py:146-173 | The orphan property for `aten::__or__`, `aten::fill_` and `aten::scatter_`. |
| RegistryFacts.InPlaceExamples | tinynn/converter/operators/torch/__init__.py:26-185 | relu/relu_, add/add_, masked_fill/masked_fill_ and index_put/index_put_ each share one converter. |
| RegistryFacts.ReluKeys | tinynn/converter/operators/torch/__init__.py:26-27 | `aten::relu` and `aten::relu_` both give `ATenReluOperator`. |
| RegistryFacts.IndexPutKeys | tinynn/converter/operators/torch/__init__.py:184-185 | `aten::index_put` and `aten::index_put_` both give `ATenIndexPutOperator`. |
| RegistryFacts.SharingIsLimited | tinynn/converter/operators/torch/__init__.py:87-88 | Two different keys share a converter other than the two generic handlers only when one is the other plus a trailing `_`, or when they are `aten::chunk` and `aten::unsafe_chunk`. |
| RegistryFacts.ChunkShared | tinynn/converter/operators/torch/__init__.py:87-88 | `aten::chunk` and `aten::unsafe_chunk` both give `ATenChunkOperator`. |
| RegistryFacts.CategoryGroup | tinynn/converter/operators/torch/__init__.py:10-228 | A line's converter category determines its group: structural means the prim group, quantization the quantized group, and generic the non-tracking group. |
| RegistryFacts.UniqueInGroup | tinynn/converter/operators/torch/__init__.py:10-20 | In a group with pairwise different converters, a converter appears on one line only. |
| RegistryFacts.StructuralUnshared | tinynn/converter/operators/torch/__init__.py:10-20 | A `Prim*` converter is reached by one key only. |
| RegistryFacts.QuantizedUnshared | tinynn/converter/operators/torch/__init__.py:193-198 | A quantized converter is reached by one key only, so fused keys are not aliases of the unfused ones. |
| RegistryFacts.FusedQuantizedSeparate | tinynn/converter/operators/torch/__init__.py:193-207 | `conv2d_relu`, `linear_relu`, `add_relu` and `batch_norm2d_relu` under `quantized` each give their own converter, different from the unfused key's. |
| RegistryFacts.StructuralKeysSize | tinynn/converter/operators/torch/__init__.py:10-20 | There are eleven structural keys. |
| RegistryFacts.TrackConstantKeysSize | tinynn/converter/operators/torch/__init__.py:217-228 | There are two constant-tracking keys. |
| RegistryFacts.NoTrackKeysSize | tinynn/converter/operators/torch/__init__.py:218-227 | There are ten non-tracking keys. |
| RegistryFacts.StructuralKeysMapToPrim | tinynn/converter/operators/torch/__init__.py:10-20 | The nine `prim::` keys, `aten::__getitem__` and `aten::len` all give structural converters. |
| RegistryFacts.TrackConstantKeysMap | tinynn/converter/operators/torch/__init__.py:217-228 | `aten::Int` and `aten::ScalarImplicit` give `TrackConstantOperator`. |
| RegistryFacts.NoTrackKeysMap | tinynn/converter/operators/torch/__init__.py:218-227 | zeros, detach, size, arange, ones, ones_like, zeros_like, empty, new_zeros and new_ones give `NoTrackOperator`. |
| RegistryFacts.NoTrackKeysPart0 | tinynn/converter/operators/torch/__init__.py:218-223 | The first six non-tracking keys give `NoTrackOperator`. |
| RegistryFacts.NoTrackKeysPart1 | tinynn/converter/operators/torch/__init__.py:224-227 | The last four non-tracking keys give `NoTrackOperator`. |
| RegistryFacts.PrimGroupNames | tinynn/converter/operators/torch/__init__.py:10-20 | Every key of the prim group is a structural key. |
| RegistryFacts.NonTrackingGroupNames | tinynn/converter/operators/torch/__init__.py:217-228 | In the non-tracking group, `TrackConstantOperator` lines carry the two constant-tracking keys and `NoTrackOperator` lines carry the ten non-tracking keys. |
| RegistryFacts.StructuralCategory | tinynn/converter/operators/torch/__init__.py:10-20 | A name gives a structural converter exactly when it is one of the eleven structural keys. |
| RegistryFacts.TrackConstantCategory | tinynn/converter/operators/torch/__init__.py:217-228 | A name gives `TrackConstantOperator` exactly when it is `aten::Int` or `aten::ScalarImplicit`. |
| RegistryFacts.NoTrackCategory | tinynn/converter/operators/torch/__init__.py:218-227 | A name gives `NoTrackOperator` exactly when it is one of the ten non-tracking keys. |
| GroupFacts.PrimGroupShape | tinynn/converter/operators/torch/__init__.py:10-20 | Each prim-group line is a `prim::` key or `aten::__getitem__`/`aten::len` with a `Prim*` converter. |
| GroupFacts.ATenGroupFacts | tinynn/converter/operators/torch/__init__.py:22-186 | Each aten-group line is an `aten::` key with a tensor converter, and every in-place key follows its base key or is an orphan. |
| GroupFacts.QuantizedGroupFacts | tinynn/converter/operators/torch/__init__.py:188-215 | Each quantized-group line is a `quantized::` or `aten::` key with a quantized converter, and every in-place key of the group follows its base key or is an orphan. |
| GroupFacts.NonTrackingGroupShape | tinynn/converter/operators/torch/__init__.py:217-228 | Each non-tracking line is an `aten::` key with one of the two generic handlers. |
| GroupFacts.FollowsBaseConcat | tinynn/converter/operators/torch/__init__.py:10-228 | "Every in-place key follows its base key or is an orphan" survives joining two blocks. |
| GroupFacts.LinesFollowBase | tinynn/converter/operators/torch/__init__.py:22-186 | In the whole literal, every in-place key that is not an orphan sits right after its base key, with the same converter. |
| SharingFacts.SharedPair | tinynn/converter/operators/torch/__init__.py:87-88 | In a display where only twins share converters, two lines with one non-generic converter have twin keys. |
| SharingFacts.GroupOfCategory | tinynn/converter/operators/torch/__init__.py:10-228 | In four groups of four categories (structural, tensor, quantization, generic), a line's category says which group holds it. |
| SharingFacts.SharedConcat | tinynn/converter/operators/torch/__init__.py:10-228 | "Only twins share" survives joining two blocks when no non-generic converter of the first occurs in the second. |
| SharingFacts.ATenGroupShared | tinynn/converter/operators/torch/__init__.py:22-186 | In the aten group, two lines share a converter only when they are adjacent twins. |
| SharingFacts.PrimGroupDistinct | tinynn/converter/operators/torch/__init__.py:10-20 | The eleven prim-group converters are pairwise different. |
| SharingFacts.QuantizedGroupDistinct | tinynn/converter/operators/torch/__init__.py:188-215 | The 28 quantized-group converters are pairwise different. |
| SharingFacts.LinesShared | tinynn/converter/operators/torch/__init__.py:10-228 | In the whole literal, two lines share a non-generic converter only when they are adjacent and the second key is the first plus `_`, or they are the chunk pair. |

## Left out

- The bodies of the converter classes. They live in the `base`, `prim`, `aten` and `quantized` modules imported at tinynn/converter/operators/torch/__init__.py:4-7, which are not part of this model. Each class is an opaque tag here.
- The tensor math those converters perform (convolution, pooling, normalisation, activations). It is floating-point work on PyTorch tensors.
- The `torch` import (line 2) and the `typing.Dict[str, OperatorConverter]` annotation (line 9). One is a library dependency and the other a type hint.
- The dispatch loop that walks the graph, the conversion context, the recursion into `prim::If` branches and the quantization side table. None of them is in the registry file.
- A missing key: the file only builds the dict, so `Lookup` returns `None` as `dict.get` does; what a caller does with a missing key is outside this model.
- Categories: the five `aten::` keys of the quantized group (quantize_per_tensor, both fake_quantize variants, quantized_lstm, dequantize) are classed with the quantization handlers, following the comment group they are written under.
