# Flink batch transform translators — a Dafny model

This project models the batch translators of the Apache Beam (Dataflow SDK)
runner for Apache Flink: the code that turns each node of a bounded logical
pipeline into Flink `DataSet` operators. It covers the translator registry and
`getTranslator`, every `translateNode` (Read, AvroIO and TextIO read and write,
ConsoleIO write, Write, GroupByKey, Combine.PerKey, ParDo.Bound,
ParDo.BoundMulti, Flatten, CreatePCollectionView, Create.Values, CoGroupByKey)
and the side-input wiring helper `transformSideInputs`.

Flink operators are uninterpreted constructors of the `Plan` datatype
(`plans.dfy`): `DataSource`, `GroupReduce`, `GroupCombine`, `MapPartition`,
`FlatMap`, `Union`, `CoGroup`, `FromElements`, and `Null` for a null
`DataSet` reference. Output operators are `DataSink` values. The translation
context is a class (`context.dfy`) with the collection → dataset map, the view
→ broadcast dataset map, the sinks registered with the execution environment,
and a ghost log of the warnings the translators emit. Every translator is a
method that changes the context and states its whole new state.

Files:

- `wrappers.dfy`: `Option` and `Result`.
- `plans.dfy`: collections, views, tags, transform nodes, and plan terms.
- `context.dfy`: the translation context. `Bind` is the write-once setter.
- `registry.dfy`: the static registry and `getTranslator`.
- `tag_index.dfy`: the tag → index table of a multi-output ParDo, in closed form, and its properties.
- `union_fold.dfy`: Flatten's left fold of `union` and its properties.
- `translators.dfy`: the translators, their loops, and the lemmas about multi-output pruning.

Properties proved:

- The multi-output tag table gives the main tag 0. It gives distinct tags
  distinct indices. When the main tag is among the outputs, the indices are
  exactly 0 .. n-1.
- The union coder lists coders in the outputs' iteration order. The tag table
  agrees with that order exactly when the main tag comes first. When the main
  tag is missing, every index is one past its output's position.
- Each new output collection of a multi-output ParDo is bound to one pruning
  stage. That stage reads the single map-partition stage and filters on that
  output's tag index.
- Flatten's result keeps every input operand exactly once, in list order. It
  stays null exactly when every input is null.

Behaviour of the code that the model keeps (line numbers refer to
`FlinkBatchTransformTranslators.java`):

- Flatten (:467-477) starts from a null result and folds the inputs with
  `union`. An empty input list therefore binds the output to the null
  reference, and so does a list whose inputs are all null. A null input that
  comes before the first non-null one is skipped.
- CoGroupByKey (:545-546) reads the keyed collections at indices 0 and 1
  without checking their number. Fewer than two fail on the out-of-bounds
  read. Collections after the second are ignored.
- Combine.PerKey (:338-343) catches the failure to find an accumulator coder,
  prints it, and carries the absent (null) coder into the pre-combine stage.
- The tag indices of a multi-output ParDo (:427) follow the iteration order
  of the output map's key set. The main tag is fixed at index 0.
- The Avro writer (:205-207) logs its two warnings under the text writer's
  labels (`TextIO.Write.filenameSuffix`, `TextIO.Write.shardNameTemplate`).
  The model keeps those labels.

## Model

| member | source | states |
|---|---|---|
| `Context.Bind` | runners/flink/runner/src/main/java/org/apache/beam/runners/flink/translation/FlinkBatchTransformTranslators.java:477 | Binding adds the collection to the bound keys. An already bound collection keeps its dataset, an unbound one gets the new dataset, and every other binding is unchanged (the keep-first rule assumed of the context). |
| `Context.TranslationContext.SetOutputDataSet` | runners/flink/runner/src/main/java/org/apache/beam/runners/flink/translation/FlinkBatchTransformTranslators.java:457 | The context's collection bindings become `Bind` of the old ones: write-once, nothing else changes. |
| `Context.TranslationContext.SetSideInputDataSet` | runners/flink/runner/src/main/java/org/apache/beam/runners/flink/translation/FlinkBatchTransformTranslators.java:486 | The view's broadcast dataset becomes the given one; other views keep theirs. |
| `Registry.RegisterKnownTranslators` | runners/flink/runner/src/main/java/org/apache/beam/runners/flink/translation/FlinkBatchTransformTranslators.java:101-135 | The map sends the class each translator is declared for to that translator. It holds no unregistered class. |
| `Registry.GetTranslatorExact` | runners/flink/runner/src/main/java/org/apache/beam/runners/flink/translation/FlinkBatchTransformTranslators.java:138-140 | On the static registry, lookup returns translator t exactly when t is declared for the transform's concrete class. It returns none exactly for an unregistered class. |
| `TagIndex.IndexTableAt` | runners/flink/runner/src/main/java/org/apache/beam/runners/flink/translation/FlinkBatchTransformTranslators.java:423-431 | The table sends the main tag to 0. It sends the tag at position i to 0 if it is the main tag, and otherwise to 1 plus the number of non-main tags before it. |
| `TagIndex.IndexTableInjective` | runners/flink/runner/src/main/java/org/apache/beam/runners/flink/translation/FlinkBatchTransformTranslators.java:423-431 | Tags at different positions receive different indices. |
| `TagIndex.IndexTableBound` | runners/flink/runner/src/main/java/org/apache/beam/runners/flink/translation/FlinkBatchTransformTranslators.java:423-431 | No index exceeds the number of non-main tags. |
| `TagIndex.IndexTableDense` | runners/flink/runner/src/main/java/org/apache/beam/runners/flink/translation/FlinkBatchTransformTranslators.java:423-431 | If the main tag is among the outputs, the set of indices is exactly 0 .. n-1. |
| `TagIndex.IndexAgreesWithIterationOrderIffMainFirst` | runners/flink/runner/src/main/java/org/apache/beam/runners/flink/translation/FlinkBatchTransformTranslators.java:423-437 | Every output's index equals its position in iteration order (the union coder's variant order) if and only if the main tag is first. |
| `TagIndex.IndexShiftedWhenMainAbsent` | runners/flink/runner/src/main/java/org/apache/beam/runners/flink/translation/FlinkBatchTransformTranslators.java:423-437 | If the main tag is not among the outputs, every output's index is its position plus one. |
| `BatchTranslators.BuildOutputMap` | runners/flink/runner/src/main/java/org/apache/beam/runners/flink/translation/FlinkBatchTransformTranslators.java:423-431 | The loop's table gives the main tag 0 and equals the closed-form index table. |
| `BatchTranslators.OutputMapStepMain` | runners/flink/runner/src/main/java/org/apache/beam/runners/flink/translation/FlinkBatchTransformTranslators.java:427-431 | Meeting the main tag again finds it present. Neither the table nor the counter changes. |
| `BatchTranslators.OutputMapStepOther` | runners/flink/runner/src/main/java/org/apache/beam/runners/flink/translation/FlinkBatchTransformTranslators.java:427-431 | A non-main tag is absent. It gets the current counter value, and the counter advances by one. |
| `BatchTranslators.OutputMapIsIndexTable` | runners/flink/runner/src/main/java/org/apache/beam/runners/flink/translation/FlinkBatchTransformTranslators.java:423-431 | A table with those keys and those per-position indices is the index table. |
| `BatchTranslators.CollectOutputCoders` | runners/flink/runner/src/main/java/org/apache/beam/runners/flink/translation/FlinkBatchTransformTranslators.java:433-437 | One coder per output, in iteration order: the coder of the output's collection. |
| `BatchTranslators.TransformSideInputs` | runners/flink/runner/src/main/java/org/apache/beam/runners/flink/translation/FlinkBatchTransformTranslators.java:521-529 | One broadcast binding per declared view, in order. Each binding holds the view's registered dataset, under the view's tag id. |
| `BatchTranslators.SerializeElements` | runners/flink/runner/src/main/java/org/apache/beam/runners/flink/translation/FlinkBatchTransformTranslators.java:501-511 | Serialization succeeds if and only if every literal encodes. On success it yields one entry per literal, in order, each that literal's encoding. On failure it names the first literal that does not encode. |
| `BatchTranslators.BindPruningStagesKeeps` | runners/flink/runner/src/main/java/org/apache/beam/runners/flink/translation/FlinkBatchTransformTranslators.java:450-459 | Binding the pruning stages leaves every earlier binding unchanged. |
| `BatchTranslators.BindPruningStagesKeys` | runners/flink/runner/src/main/java/org/apache/beam/runners/flink/translation/FlinkBatchTransformTranslators.java:450-459 | Afterwards the bound collections are the earlier ones plus the output collections. |
| `BatchTranslators.BindPruningStagesFirst` | runners/flink/runner/src/main/java/org/apache/beam/runners/flink/translation/FlinkBatchTransformTranslators.java:450-459 | A collection that was unbound is bound to the pruning stage of the first output naming it, which filters on that output's tag index. |
| `BatchTranslators.MultiOutputPruning` | runners/flink/runner/src/main/java/org/apache/beam/runners/flink/translation/FlinkBatchTransformTranslators.java:446-459 | A new output collection named by one output is bound to exactly one pruning FlatMap. The FlatMap reads the single MapPartition stage and filters on that output's tag index. That index differs from the index of every other output. |
| `BatchTranslators.PruningIndexSelectsOwnCoder` | runners/flink/runner/src/main/java/org/apache/beam/runners/flink/translation/FlinkBatchTransformTranslators.java:423-456 | When the main tag is first, each output's filter index is its position, and the union coder's variant at that index is the output's own coder. |
| `BatchTranslators.IndexTableCoversOutputs` | runners/flink/runner/src/main/java/org/apache/beam/runners/flink/translation/FlinkBatchTransformTranslators.java:450-452 | Every output tag has an entry in the table, so the lookup at :452 always finds one. |
| `BatchTranslators.TranslateReadSource` | runners/flink/runner/src/main/java/org/apache/beam/runners/flink/translation/FlinkBatchTransformTranslators.java:145-157 | Binds the output to a data source over the bounded source, named after the transform. |
| `BatchTranslators.TranslateAvroIORead` | runners/flink/runner/src/main/java/org/apache/beam/runners/flink/translation/FlinkBatchTransformTranslators.java:164-190 | Binds the output to a data source reading the file pattern as the given Avro class. |
| `BatchTranslators.TranslateTextIORead` | runners/flink/runner/src/main/java/org/apache/beam/runners/flink/translation/FlinkBatchTransformTranslators.java:235-252 | Logs the compression type and the validation flag. Binds the output to a text-file data source. |
| `BatchTranslators.TranslateAvroIOWrite` | runners/flink/runner/src/main/java/org/apache/beam/runners/flink/translation/FlinkBatchTransformTranslators.java:197-228 | Logs the suffix and the shard template. Appends one Avro sink over the input dataset. Its parallelism is set, to numShards, if and only if numShards > 0. |
| `BatchTranslators.TranslateTextIOWrite` | runners/flink/runner/src/main/java/org/apache/beam/runners/flink/translation/FlinkBatchTransformTranslators.java:259-280 | Logs the three unsupported options. Appends one text sink over the input dataset. Its parallelism is set, to numShards, if and only if numShards > 0. |
| `BatchTranslators.TranslateConsoleIOWrite` | runners/flink/runner/src/main/java/org/apache/beam/runners/flink/translation/FlinkBatchTransformTranslators.java:285-289 | Appends one sink that prints the input dataset with the transform's name as prefix. |
| `BatchTranslators.TranslateWriteSink` | runners/flink/runner/src/main/java/org/apache/beam/runners/flink/translation/FlinkBatchTransformTranslators.java:295-301 | Appends one sink through the transform's sink, named after the transform, with default parallelism. |
| `BatchTranslators.TranslateGroupByKey` | runners/flink/runner/src/main/java/org/apache/beam/runners/flink/translation/FlinkBatchTransformTranslators.java:310-322 | Binds the output to a single keyed-list GroupReduce on "key" over the input dataset. |
| `BatchTranslators.TranslateCombinePerKey` | runners/flink/runner/src/main/java/org/apache/beam/runners/flink/translation/FlinkBatchTransformTranslators.java:328-369 | Binds the output to a GroupReduce on "key". It runs over a GroupCombine on "key", which runs over the input dataset. Both stages use the combine function. The possibly absent accumulator coder is carried along. |
| `BatchTranslators.TranslateCoGroupByKey` | runners/flink/runner/src/main/java/org/apache/beam/runners/flink/translation/FlinkBatchTransformTranslators.java:539-568 | Succeeds if and only if there are at least two keyed collections. On success it binds a CoGroup of the first two, each keyed on "key", with their tags. Otherwise it fails at the missing index and leaves the context unchanged. |
| `BatchTranslators.TranslateParDoBound` | runners/flink/runner/src/main/java/org/apache/beam/runners/flink/translation/FlinkBatchTransformTranslators.java:396-409 | Binds the output to one MapPartition over the input, carrying one broadcast binding per side input. |
| `BatchTranslators.TranslateParDoBoundMulti` | runners/flink/runner/src/main/java/org/apache/beam/runners/flink/translation/FlinkBatchTransformTranslators.java:416-460 | Builds one MapPartition carrying the index table, the union coder over the output coders in iteration order, and the side-input bindings. Binds each output in turn to its pruning stage. |
| `BatchTranslators.BuildMultiOutputStage` | runners/flink/runner/src/main/java/org/apache/beam/runners/flink/translation/FlinkBatchTransformTranslators.java:416-447 | The map-partition stage carries the closed-form index table (main tag at 0, other tags numbered in iteration order), the union coder over the output coders in iteration order, the input's dataset and the side-input bindings. |
| `BatchTranslators.BindOutputs` | runners/flink/runner/src/main/java/org/apache/beam/runners/flink/translation/FlinkBatchTransformTranslators.java:449-458 | Each declared output, in turn, is bound (write-once) to a pruning stage over the shared stage that selects that output's own tag index. |
| `BatchTranslators.TranslateFlatten` | runners/flink/runner/src/main/java/org/apache/beam/runners/flink/translation/FlinkBatchTransformTranslators.java:466-478 | Binds the output to the left fold of union over the input datasets, in list order. The fold starts from null. |
| `BatchTranslators.TranslateCreatePCollectionView` | runners/flink/runner/src/main/java/org/apache/beam/runners/flink/translation/FlinkBatchTransformTranslators.java:483-487 | Registers the input's dataset as the view's broadcast dataset. Changes no collection binding. |
| `BatchTranslators.TranslateCreate` | runners/flink/runner/src/main/java/org/apache/beam/runners/flink/translation/FlinkBatchTransformTranslators.java:493-518 | Succeeds if and only if every literal encodes. On success it binds a FlatMap over the seed dataset [1], carrying the encodings in literal order. On failure it reports a literal that does not encode, all earlier ones having encoded, and binds nothing. |
| `UnionFold.FoldUnionOperands` | runners/flink/runner/src/main/java/org/apache/beam/runners/flink/translation/FlinkBatchTransformTranslators.java:467-477 | The fold's union operands are the inputs' operands concatenated in list order: nothing is lost, duplicated or reordered. |
| `UnionFold.FoldUnionNull` | runners/flink/runner/src/main/java/org/apache/beam/runners/flink/translation/FlinkBatchTransformTranslators.java:467-477 | The result is null if and only if every input is null. This includes the empty list. |
| `UnionFold.FoldUnionSingle` | runners/flink/runner/src/main/java/org/apache/beam/runners/flink/translation/FlinkBatchTransformTranslators.java:469-473 | A single input passes through unchanged. |
| `UnionFold.FoldUnionNestsLeft` | runners/flink/runner/src/main/java/org/apache/beam/runners/flink/translation/FlinkBatchTransformTranslators.java:469-476 | With no null inputs and n >= 2 of them, the result is the union of the non-null fold of the first n-1 with the last: ((d1 ∪ d2) ∪ …) ∪ dn. |

## Left out

- The source of FlinkBatchTranslationContext is not among the modelled files; `Context.TranslationContext` stands in for it, with the two binding maps, the sink list and a warning log. Reading a binding requires the key to be bound. That setting an output dataset is write-once and keeps the first dataset (`Context.Bind`) is an assumption about that class; `BindPruningStagesFirst`, `BindPruningStagesKeeps` and `MultiOutputPruning` rely on it. A context that rejected a second binding instead would differ only when two outputs name the same collection.
- FlinkBatchPipelineTranslator, the graph walker that calls `getTranslator` and `translateNode`, is not part of this model. The translators are separate methods, each requiring a transform of its own class.
- Flink `TypeInformation` is not modelled. Only the union-coder type of the multi-output stage and the output collection's type of a single-output ParDo are recorded.
- The execution environment and pipeline options that operators and function wrappers receive are left out.
- What the operators and wrapped functions compute at run time is left out: grouping, combining, pruning, decoding, co-grouping and union semantics. Those functions live in other files.
- The reflection that reads the private Avro `type` field is replaced by an `avroType` field of the transform. Its failure path is left out.
- The coder lookups are inputs of the model. The combine function's accumulator-coder lookup is an `Option` field of the node. The output coder's `encode` is a function parameter that may fail.
- Byte-level encoding is left out.
- The stack trace printed for a missing accumulator coder is left out.
- Logging is a ghost sequence of (option label, requested value) warnings.
- TranslateParDoBound, TranslateParDoBoundMulti: in the source, the broadcast sets are attached to the operator after it is built. In the model, `TransformSideInputs` returns the bindings and the operator is built with them. The order of attachment is kept. Mutating a shared operator object is not modelled.
- TranslateAvroIOWrite, TranslateTextIOWrite: in the source, parallelism is set on the sink after it is registered. In the model, the sink is built with its parallelism and then registered.
- The engine's reaction to a null dataset is not modelled. Operators built over a null dataset (after an empty Flatten) are recorded as built.
- Windowing is ignored, as in the source.
- Plan execution is left out.
