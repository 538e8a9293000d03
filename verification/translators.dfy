/**
 * The batch translators. Each one reads the datasets of its inputs from the
 * translation context, builds engine operators over them and writes its
 * outputs back: output datasets, broadcast datasets, data sinks, and
 * warnings about options it does not translate.
 */
module BatchTranslators {
  import opened Wrappers
  import opened Plans
  import opened Context
  import opened TagIndex
  import opened UnionFold

  datatype TranslationError =
    | EncodingFailed(element: Element)   // a literal of Create.Values could not be serialized
    | IndexOutOfBounds(index: nat)       // a keyed collection the co-group reads is missing

  datatype Outcome = Done | Failed(error: TranslationError)

  // ---------------------------------------------------------------------------
  //  Specification functions
  // ---------------------------------------------------------------------------

  /** The datasets bound to the given collections, in order. */
  ghost function DataSetsOf(dataSets: map<PCollection, Plan>, cs: seq<PCollection>): (ds: seq<Plan>)
    requires forall c :: c in cs ==> c in dataSets
    ensures |ds| == |cs|
  {
    seq(|cs|, i requires 0 <= i < |cs| => dataSets[cs[i]])
  }

  /** One broadcast binding per view, in order, named by the view's tag id. */
  ghost function SideInputBindings(broadcastDataSets: map<PCollectionView, Plan>, views: seq<PCollectionView>): (r: seq<Broadcast>)
    requires forall v :: v in views ==> v in broadcastDataSets
  {
    seq(|views|, i requires 0 <= i < |views| => Broadcast(broadcastDataSets[views[i]], views[i].tagId))
  }

  /** The element coders of a tagged bundle, in iteration order. */
  ghost function OutputCoders(outputs: seq<TaggedOutput>): (r: seq<Coder>) {
    seq(|outputs|, i requires 0 <= i < |outputs| => outputs[i].collection.coder)
  }

  /** The serialized literals, when every literal could be encoded. */
  ghost function Encoded(elements: seq<Element>, encode: Element -> Option<Bytes>): (r: seq<Bytes>)
    requires forall i :: 0 <= i < |elements| ==> encode(elements[i]).Some?
  {
    seq(|elements|, i requires 0 <= i < |elements| => encode(elements[i]).value)
  }

  /** The single map-partition stage of a multi-output ParDo, producing tagged union values. */
  ghost function MultiOutputStage(t: Transform, dataSets: map<PCollection, Plan>,
                                  broadcastDataSets: map<PCollectionView, Plan>): (r: Plan)
    requires t.ParDoBoundMulti? && t.input in dataSets
    requires forall v :: v in t.sideInputs ==> v in broadcastDataSets
  {
    MapPartition(MultiOutputDoFnFunction(t.doFn, IndexTable(Tags(t.outputs), t.mainOutputTag)),
                 UnionCoderType(OutputCoders(t.outputs)),
                 dataSets[t.input], SideInputBindings(broadcastDataSets, t.sideInputs), t.name)
  }

  /** The pruning stage that keeps, of the union values of `stage`, those carrying index `index`. */
  function PruningStage(index: nat, stage: Plan, c: PCollection): (r: Plan) {
    FlatMap(MultiOutputPruningFunction(index), stage, c.name)
  }

  /** The context's datasets after binding the first `n` outputs to their pruning stages. */
  ghost function BindPruningStages(dataSets: map<PCollection, Plan>, outputs: seq<TaggedOutput>,
                                   table: map<TupleTag, nat>, stage: Plan, n: nat): (r: map<PCollection, Plan>)
    requires n <= |outputs|
    requires forall i :: 0 <= i < |outputs| ==> outputs[i].tag in table
  {
    if n == 0 then dataSets
    else
      var o := outputs[n - 1];
      Bind(BindPruningStages(dataSets, outputs, table, stage, n - 1), o.collection,
           PruningStage(table[o.tag], stage, o.collection))
  }

  /** Binding the pruning stages keeps every earlier binding. */
  lemma {:induction false} BindPruningStagesKeeps(dataSets: map<PCollection, Plan>, outputs: seq<TaggedOutput>,
                                                  table: map<TupleTag, nat>, stage: Plan, n: nat, c: PCollection)
    requires n <= |outputs|
    requires forall i :: 0 <= i < |outputs| ==> outputs[i].tag in table
    requires c in dataSets
    ensures c in BindPruningStages(dataSets, outputs, table, stage, n)
    ensures BindPruningStages(dataSets, outputs, table, stage, n)[c] == dataSets[c]
  {
    if n > 0 {
      BindPruningStagesKeeps(dataSets, outputs, table, stage, n - 1, c);
    }
  }

  /** Binding the pruning stages binds exactly the earlier collections and the first `n` output collections. */
  lemma {:induction false} BindPruningStagesKeys(dataSets: map<PCollection, Plan>, outputs: seq<TaggedOutput>,
                                                 table: map<TupleTag, nat>, stage: Plan, n: nat, c: PCollection)
    requires n <= |outputs|
    requires forall i :: 0 <= i < |outputs| ==> outputs[i].tag in table
    ensures c in BindPruningStages(dataSets, outputs, table, stage, n)
        <==> c in dataSets || exists i :: 0 <= i < n && outputs[i].collection == c
  {
    if n > 0 {
      BindPruningStagesKeys(dataSets, outputs, table, stage, n - 1, c);
      if c == outputs[n - 1].collection {
        assert exists i :: 0 <= i < n && outputs[i].collection == c;
      }
    }
  }

  /**
   * A collection that was free is bound to the pruning stage of the first
   * output that names it, filtering on that output's tag index.
   */
  lemma {:induction false} BindPruningStagesFirst(dataSets: map<PCollection, Plan>, outputs: seq<TaggedOutput>,
                                                  table: map<TupleTag, nat>, stage: Plan, n: nat, i: nat)
    requires n <= |outputs|
    requires forall j :: 0 <= j < |outputs| ==> outputs[j].tag in table
    requires i < n && outputs[i].collection !in dataSets
    requires forall j :: 0 <= j < i ==> outputs[j].collection != outputs[i].collection
    ensures outputs[i].collection in BindPruningStages(dataSets, outputs, table, stage, n)
    ensures BindPruningStages(dataSets, outputs, table, stage, n)[outputs[i].collection]
         == PruningStage(table[outputs[i].tag], stage, outputs[i].collection)
  {
    var c := outputs[i].collection;
    if n - 1 == i {
      BindPruningStagesKeys(dataSets, outputs, table, stage, i, c);
    } else {
      BindPruningStagesFirst(dataSets, outputs, table, stage, n - 1, i);
    }
  }

  /**
   * Every declared output of a multi-output ParDo whose collection is new is
   * bound to exactly one pruning stage; that stage reads the single
   * map-partition stage and filters on the output's tag index, and distinct
   * outputs filter on distinct indices.
   */
  lemma MultiOutputPruning(dataSets: map<PCollection, Plan>, outputs: seq<TaggedOutput>, main: TupleTag,
                           stage: Plan, i: nat, j: nat)
    requires Distinct(Tags(outputs))
    requires i < |outputs| && j < |outputs|
    requires outputs[i].collection !in dataSets
    requires forall k :: 0 <= k < |outputs| && k != i ==> outputs[k].collection != outputs[i].collection
    ensures forall k :: 0 <= k < |outputs| ==> outputs[k].tag in IndexTable(Tags(outputs), main)
    ensures var table := IndexTable(Tags(outputs), main);
      var r := BindPruningStages(dataSets, outputs, table, stage, |outputs|);
      && outputs[i].collection in r
      && r[outputs[i].collection] == PruningStage(table[outputs[i].tag], stage, outputs[i].collection)
      && r[outputs[i].collection].input == stage
      && (i != j ==> r[outputs[i].collection].flatMapFn.outputTag != table[outputs[j].tag])
  {
    var tags := Tags(outputs);
    assert forall k :: 0 <= k < |outputs| ==> outputs[k].tag == tags[k];
    var table := IndexTable(tags, main);
    BindPruningStagesFirst(dataSets, outputs, table, stage, |outputs|, i);
    if i < j {
      IndexTableInjective(tags, main, i, j);
    } else if j < i {
      IndexTableInjective(tags, main, j, i);
    }
  }

  /**
   * When the main tag comes first in iteration order, the pruning stage of
   * every output filters on exactly the position of that output's coder in
   * the union coder, so the producer and every filter agree on the index.
   */
  lemma PruningIndexSelectsOwnCoder(outputs: seq<TaggedOutput>, main: TupleTag, i: nat)
    requires Distinct(Tags(outputs)) && i < |outputs| && outputs[0].tag == main
    ensures outputs[i].tag in IndexTable(Tags(outputs), main)
    ensures var k := IndexTable(Tags(outputs), main)[outputs[i].tag];
      k == i && k < |OutputCoders(outputs)| && OutputCoders(outputs)[k] == outputs[i].collection.coder
  {
    var tags := Tags(outputs);
    assert tags[0] == main && tags[i] == outputs[i].tag;
    IndexAgreesWithIterationOrderIffMainFirst(tags, main);
  }

  // ---------------------------------------------------------------------------
  //  Helpers the translators share
  // ---------------------------------------------------------------------------

  /** The broadcast binding for each side input, in declaration order, under the view's tag id. */
  method TransformSideInputs(sideInputs: seq<PCollectionView>, ctx: TranslationContext)
    returns (broadcasts: seq<Broadcast>)
    requires forall v :: v in sideInputs ==> v in ctx.broadcastDataSets
    ensures broadcasts == SideInputBindings(ctx.broadcastDataSets, sideInputs)
  {
    broadcasts := [];
    for i := 0 to |sideInputs|
      invariant |broadcasts| == i
      invariant forall j :: 0 <= j < i ==>
        broadcasts[j] == Broadcast(ctx.broadcastDataSets[sideInputs[j]], sideInputs[j].tagId)
    {
      var input := sideInputs[i];
      var broadcastSet := ctx.GetSideInputDataSet(input);
      broadcasts := broadcasts + [Broadcast(broadcastSet, input.tagId)];
    }
    assert |broadcasts| == |SideInputBindings(ctx.broadcastDataSets, sideInputs)|;
  }

  /**
   * The tag-to-index table of a multi-output ParDo: the main tag first at
   * index 0, then a counter that advances only for a tag not yet present.
   */
  method BuildOutputMap(tags: seq<TupleTag>, main: TupleTag) returns (outputMap: map<TupleTag, nat>)
    requires Distinct(tags)
    ensures main in outputMap && outputMap[main] == 0
    ensures outputMap == IndexTable(tags, main)
  {
    outputMap := map[main := 0];
    var count := 1;
    for i := 0 to |tags|
      invariant OutputMapSoFar(tags, main, i, outputMap, count)
    {
      var tag := tags[i];
      if tag == main {
        OutputMapStepMain(tags, main, i, outputMap, count);
      } else {
        assert forall j :: 0 <= j < i ==> tags[j] != tags[i];
        OutputMapStepOther(tags, main, i, outputMap, count);
      }
      if !(tag in outputMap) {
        outputMap := outputMap[tag := count];
        count := count + 1;
      }
    }
    assert tags[..|tags|] == tags;
    forall t ensures t in TagSet(tags) <==> t in tags {
      TagSetMembers(tags, t);
    }
    OutputMapIsIndexTable(tags, main, outputMap);
  }

  /** What BuildOutputMap's table and counter hold after the first `i` tags. */
  ghost predicate OutputMapSoFar(tags: seq<TupleTag>, main: TupleTag, i: nat, outputMap: map<TupleTag, nat>, count: nat)
    requires i <= |tags|
  {
    && outputMap.Keys == {main} + TagSet(tags[..i])
    && outputMap[main] == 0
    && (forall j :: 0 <= j < i ==> tags[j] in outputMap && outputMap[tags[j]] == OutputIndex(tags, main, j))
    && count == 1 + CountOther(tags[..i], main)
  }

  /** A step of BuildOutputMap's loop over the main tag: it is present already, and nothing changes. */
  lemma {:induction false} OutputMapStepMain(tags: seq<TupleTag>, main: TupleTag, i: nat,
                                             outputMap: map<TupleTag, nat>, count: nat)
    requires i < |tags| && tags[i] == main
    requires OutputMapSoFar(tags, main, i, outputMap, count)
    ensures tags[i] in outputMap
    ensures OutputMapSoFar(tags, main, i + 1, outputMap, count)
  {
    assert tags[..i + 1] == tags[..i] + [main];
    CountOtherSnoc(tags[..i], main, main);
    TagSetSnoc(tags[..i], main);
  }

  /** A step of BuildOutputMap's loop over another tag: it is new, gets the counter, and the counter advances. */
  lemma {:induction false} OutputMapStepOther(tags: seq<TupleTag>, main: TupleTag, i: nat,
                                              outputMap: map<TupleTag, nat>, count: nat)
    requires i < |tags| && tags[i] != main
    requires forall j :: 0 <= j < i ==> tags[j] != tags[i]
    requires OutputMapSoFar(tags, main, i, outputMap, count)
    ensures tags[i] !in outputMap
    ensures OutputMapSoFar(tags, main, i + 1, outputMap[tags[i] := count], count + 1)
  {
    var tag := tags[i];
    var next := outputMap[tag := count];
    assert tags[..i + 1] == tags[..i] + [tag];
    CountOtherSnoc(tags[..i], tag, main);
    TagSetSnoc(tags[..i], tag);
    TagSetMembers(tags[..i], tag);
    forall j | 0 <= j < i + 1 ensures tags[j] in next && next[tags[j]] == OutputIndex(tags, main, j) {
      if j < i {
        assert tags[j] in outputMap && next[tags[j]] == outputMap[tags[j]];
      }
    }
  }

  /** A table with the keys and indices that the loop of BuildOutputMap establishes is the index table. */
  lemma OutputMapIsIndexTable(tags: seq<TupleTag>, main: TupleTag, outputMap: map<TupleTag, nat>)
    requires Distinct(tags)
    requires forall t :: t in outputMap <==> t == main || t in tags
    requires main in outputMap && outputMap[main] == 0
    requires forall j :: 0 <= j < |tags| ==> outputMap[tags[j]] == OutputIndex(tags, main, j)
    ensures outputMap == IndexTable(tags, main)
  {
    var table := IndexTable(tags, main);
    assert outputMap.Keys == table.Keys;
    forall t | t in outputMap ensures outputMap[t] == table[t] {
      if t != main {
        var p := PositionOf(tags, t);
        assert outputMap[tags[p]] == OutputIndex(tags, main, p);
      }
    }
  }

  /** The coders of the outputs, in iteration order: the variants of the union coder. */
  method CollectOutputCoders(outputs: seq<TaggedOutput>) returns (outputCoders: seq<Coder>)
    ensures outputCoders == OutputCoders(outputs)
  {
    outputCoders := [];
    for i := 0 to |outputs|
      invariant |outputCoders| == i
      invariant forall j :: 0 <= j < i ==> outputCoders[j] == outputs[j].collection.coder
    {
      outputCoders := outputCoders + [outputs[i].collection.coder];
    }
    assert |outputCoders| == |OutputCoders(outputs)|;
  }

  /**
   * Serializes the literals of a Create one by one, in order; the first
   * literal that cannot be encoded aborts the serialization.
   */
  method SerializeElements(elements: seq<Element>, encode: Element -> Option<Bytes>)
    returns (r: Result<seq<Bytes>, Element>)
    ensures r.Success? <==> forall i :: 0 <= i < |elements| ==> encode(elements[i]).Some?
    ensures r.Success? ==> |r.value| == |elements|
    ensures r.Success? ==> forall i :: 0 <= i < |elements| ==> encode(elements[i]) == Some(r.value[i])
    ensures r.Failure? ==> exists i :: 0 <= i < |elements| && elements[i] == r.error && encode(elements[i]).None?
                                     && forall j :: 0 <= j < i ==> encode(elements[j]).Some?
  {
    var serializedElements := [];
    for i := 0 to |elements|
      invariant |serializedElements| == i
      invariant forall j :: 0 <= j < i ==> encode(elements[j]) == Some(serializedElements[j])
    {
      var encoded := encode(elements[i]);
      if encoded.None? {
        return Failure(elements[i]);
      }
      serializedElements := serializedElements + [encoded.value];
    }
    r := Success(serializedElements);
  }

  // ---------------------------------------------------------------------------
  //  Sources and sinks
  // ---------------------------------------------------------------------------

  method TranslateReadSource(t: Transform, ctx: TranslationContext)
    requires t.ReadBounded?
    modifies ctx`dataSets
    ensures ctx.dataSets == Bind(old(ctx.dataSets), t.output, DataSource(SourceInputFormat(t.source), t.name))
  {
    ctx.SetOutputDataSet(t.output, DataSource(SourceInputFormat(t.source), t.name));
  }

  method TranslateAvroIORead(t: Transform, ctx: TranslationContext)
    requires t.AvroIORead?
    modifies ctx`dataSets
    ensures ctx.dataSets == Bind(old(ctx.dataSets), t.output, DataSource(AvroInputFormat(t.filepattern, t.avroType), t.name))
  {
    var source := DataSource(AvroInputFormat(t.filepattern, t.avroType), t.name);
    ctx.SetOutputDataSet(t.output, source);
  }

  method TranslateTextIORead(t: Transform, ctx: TranslationContext)
    requires t.TextIORead?
    modifies ctx`dataSets, ctx`warnings
    ensures ctx.warnings == old(ctx.warnings) + [Warning("TextIO.CompressionType", Text(t.compressionType)),
                                                 Warning("TextIO.Read.needsValidation", Flag(t.needsValidation))]
    ensures ctx.dataSets == Bind(old(ctx.dataSets), t.output, DataSource(TextInputFormat(t.filepattern), t.name))
  {
    ctx.Warn(Warning("TextIO.CompressionType", Text(t.compressionType)));
    ctx.Warn(Warning("TextIO.Read.needsValidation", Flag(t.needsValidation)));
    var source := DataSource(TextInputFormat(t.filepattern), t.name);
    ctx.SetOutputDataSet(t.output, source);
  }

  /**
   * The Avro writer registers one sink over the input dataset; its
   * parallelism is the shard count exactly when that count is positive.
   * (Its warnings carry the text writer's option labels.)
   */
  method TranslateAvroIOWrite(t: Transform, ctx: TranslationContext)
    requires t.AvroIOWrite? && t.input in ctx.dataSets
    modifies ctx`sinks, ctx`warnings
    ensures ctx.warnings == old(ctx.warnings) + [Warning("TextIO.Write.filenameSuffix", Text(t.filenameSuffix)),
                                                 Warning("TextIO.Write.shardNameTemplate", Text(t.shardNameTemplate))]
    ensures |ctx.sinks| == |old(ctx.sinks)| + 1 && ctx.sinks[..|old(ctx.sinks)|] == old(ctx.sinks)
    ensures var s := ctx.sinks[|old(ctx.sinks)|];
      && s.input == ctx.dataSets[t.input] && s.format == AvroOutputFormat(t.filenamePrefix, t.avroType)
      && s.name.None?
      && (s.parallelism.Some? <==> t.numShards > 0)
      && (s.parallelism.Some? ==> s.parallelism.value == t.numShards)
  {
    var inputDataSet := ctx.GetInputDataSet(t.input);
    ctx.Warn(Warning("TextIO.Write.filenameSuffix", Text(t.filenameSuffix)));
    ctx.Warn(Warning("TextIO.Write.shardNameTemplate", Text(t.shardNameTemplate)));
    var dataSink := DataSink(inputDataSet, AvroOutputFormat(t.filenamePrefix, t.avroType), None, None);
    if t.numShards > 0 {
      dataSink := dataSink.(parallelism := Some(t.numShards));
    }
    ctx.AddSink(dataSink);
  }

  /** The text writer: one sink, explicit parallelism exactly for a positive shard count. */
  method TranslateTextIOWrite(t: Transform, ctx: TranslationContext)
    requires t.TextIOWrite? && t.input in ctx.dataSets
    modifies ctx`sinks, ctx`warnings
    ensures ctx.warnings == old(ctx.warnings) + [Warning("TextIO.Write.needsValidation", Flag(t.needsValidation)),
                                                 Warning("TextIO.Write.filenameSuffix", Text(t.filenameSuffix)),
                                                 Warning("TextIO.Write.shardNameTemplate", Text(t.shardNameTemplate))]
    ensures |ctx.sinks| == |old(ctx.sinks)| + 1 && ctx.sinks[..|old(ctx.sinks)|] == old(ctx.sinks)
    ensures var s := ctx.sinks[|old(ctx.sinks)|];
      && s.input == ctx.dataSets[t.input] && s.format == TextOutputFormat(t.filenamePrefix)
      && s.name.None?
      && (s.parallelism.Some? <==> t.numShards > 0)
      && (s.parallelism.Some? ==> s.parallelism.value == t.numShards)
  {
    var inputDataSet := ctx.GetInputDataSet(t.input);
    ctx.Warn(Warning("TextIO.Write.needsValidation", Flag(t.needsValidation)));
    ctx.Warn(Warning("TextIO.Write.filenameSuffix", Text(t.filenameSuffix)));
    ctx.Warn(Warning("TextIO.Write.shardNameTemplate", Text(t.shardNameTemplate)));
    var dataSink := DataSink(inputDataSet, TextOutputFormat(t.filenamePrefix), None, None);
    if t.numShards > 0 {
      dataSink := dataSink.(parallelism := Some(t.numShards));
    }
    ctx.AddSink(dataSink);
  }

  /** Prints the input dataset on the task managers, prefixed with the transform's name. */
  method TranslateConsoleIOWrite(t: Transform, ctx: TranslationContext)
    requires t.ConsoleIOWrite? && t.input in ctx.dataSets
    modifies ctx`sinks
    ensures ctx.sinks == old(ctx.sinks) + [DataSink(ctx.dataSets[t.input], PrintingOutputFormat(t.name), None, None)]
  {
    var inputDataSet := ctx.GetInputDataSet(t.input);
    ctx.AddSink(DataSink(inputDataSet, PrintingOutputFormat(t.name), None, None));
  }

  /** Writes the input dataset through the transform's sink, as a sink named after the transform. */
  method TranslateWriteSink(t: Transform, ctx: TranslationContext)
    requires t.WriteBound? && t.input in ctx.dataSets
    modifies ctx`sinks
    ensures ctx.sinks == old(ctx.sinks) + [DataSink(ctx.dataSets[t.input], SinkOutputFormat(t.sink), Some(t.name), None)]
  {
    var inputDataSet := ctx.GetInputDataSet(t.input);
    ctx.AddSink(DataSink(inputDataSet, SinkOutputFormat(t.sink), Some(t.name), None));
  }

  // ---------------------------------------------------------------------------
  //  Keyed operations
  // ---------------------------------------------------------------------------

  /** A single group-reduce keyed on "key" that collects each key's values into a list. */
  method TranslateGroupByKey(t: Transform, ctx: TranslationContext)
    requires t.GroupByKey? && t.input in ctx.dataSets
    modifies ctx`dataSets
    ensures ctx.dataSets == Bind(old(ctx.dataSets), t.output,
                                 GroupReduce([KeyField], KeyedListAggregation, old(ctx.dataSets)[t.input], t.name))
  {
    var inputDataSet := ctx.GetInputDataSet(t.input);
    var outputDataSet := GroupReduce([KeyField], KeyedListAggregation, inputDataSet, t.name);
    ctx.SetOutputDataSet(t.output, outputDataSet);
  }

  /**
   * Two-phase combine: a group-combine keyed on "key" builds partial
   * accumulators over the input, and a group-reduce keyed on "key" over that
   * stage produces the output. A missing accumulator coder is carried along.
   */
  method TranslateCombinePerKey(t: Transform, ctx: TranslationContext)
    requires t.CombinePerKey? && t.input in ctx.dataSets
    modifies ctx`dataSets
    ensures ctx.dataSets == Bind(old(ctx.dataSets), t.output,
      GroupReduce([KeyField], ReduceFunction(t.combineFn),
                  GroupCombine([KeyField], PartialReduceFunction(t.combineFn), t.accumulatorCoder,
                               old(ctx.dataSets)[t.input], "GroupCombine: " + t.name),
                  t.name))
  {
    var inputDataSet := ctx.GetInputDataSet(t.input);
    var groupCombine := GroupCombine([KeyField], PartialReduceFunction(t.combineFn), t.accumulatorCoder,
                                     inputDataSet, "GroupCombine: " + t.name);
    var outputDataSet := GroupReduce([KeyField], ReduceFunction(t.combineFn), groupCombine, t.name);
    ctx.SetOutputDataSet(t.output, outputDataSet);
  }

  /**
   * A co-group of the first two keyed collections, each keyed on "key".
   * Fewer than two fails as an out-of-bounds read; further ones are not read.
   */
  method TranslateCoGroupByKey(t: Transform, ctx: TranslationContext) returns (outcome: Outcome)
    requires t.CoGroupByKey?
    requires forall i :: 0 <= i < |t.keyedCollections| && i < 2 ==> t.keyedCollections[i].collection in ctx.dataSets
    modifies ctx`dataSets
    ensures outcome.Done? <==> |t.keyedCollections| >= 2
    ensures outcome.Failed? ==> outcome.error == IndexOutOfBounds(|t.keyedCollections|) && ctx.dataSets == old(ctx.dataSets)
    ensures outcome.Done? ==>
      var kc := t.keyedCollections;
      ctx.dataSets == Bind(old(ctx.dataSets), t.output,
        CoGroup(old(ctx.dataSets)[kc[0].collection], old(ctx.dataSets)[kc[1].collection], [KeyField], [KeyField],
                CoGroupKeyedListAggregator(t.schema, kc[0].tag, kc[1].tag), t.name))
  {
    var keyedCollections := t.keyedCollections;
    if |keyedCollections| < 2 {
      return Failed(IndexOutOfBounds(|keyedCollections|));
    }
    var taggedCollection1 := keyedCollections[0];
    var taggedCollection2 := keyedCollections[1];
    var inputDataSet1 := ctx.GetInputDataSet(taggedCollection1.collection);
    var inputDataSet2 := ctx.GetInputDataSet(taggedCollection2.collection);
    var aggregator := CoGroupKeyedListAggregator(t.schema, taggedCollection1.tag, taggedCollection2.tag);
    var out := CoGroup(inputDataSet1, inputDataSet2, [KeyField], [KeyField], aggregator, t.name);
    ctx.SetOutputDataSet(t.output, out);
    outcome := Done;
  }

  // ---------------------------------------------------------------------------
  //  ParDo
  // ---------------------------------------------------------------------------

  /** One map-partition stage over the input, with one broadcast binding per side input. */
  method TranslateParDoBound(t: Transform, ctx: TranslationContext)
    requires t.ParDoBound? && t.input in ctx.dataSets
    requires forall v :: v in t.sideInputs ==> v in ctx.broadcastDataSets
    modifies ctx`dataSets
    ensures ctx.dataSets == Bind(old(ctx.dataSets), t.output,
      MapPartition(DoFnFunction(t.doFn), CollectionType(t.output), old(ctx.dataSets)[t.input],
                   SideInputBindings(ctx.broadcastDataSets, t.sideInputs), t.name))
  {
    var inputDataSet := ctx.GetInputDataSet(t.input);
    var broadcasts := TransformSideInputs(t.sideInputs, ctx);
    var outputDataSet := MapPartition(DoFnFunction(t.doFn), CollectionType(t.output), inputDataSet, broadcasts, t.name);
    ctx.SetOutputDataSet(t.output, outputDataSet);
  }

  /**
   * One map-partition stage emitting tagged union values, followed by one
   * pruning stage per declared output that keeps the values carrying that
   * output's tag index.
   */
  method TranslateParDoBoundMulti(t: Transform, ctx: TranslationContext)
    requires t.ParDoBoundMulti? && t.input in ctx.dataSets
    requires forall v :: v in t.sideInputs ==> v in ctx.broadcastDataSets
    requires Distinct(Tags(t.outputs))
    modifies ctx`dataSets
    ensures forall i :: 0 <= i < |t.outputs| ==> t.outputs[i].tag in IndexTable(Tags(t.outputs), t.mainOutputTag)
    ensures ctx.dataSets == BindPruningStages(old(ctx.dataSets), t.outputs,
                                              IndexTable(Tags(t.outputs), t.mainOutputTag),
                                              MultiOutputStage(t, old(ctx.dataSets), ctx.broadcastDataSets),
                                              |t.outputs|)
  {
    var outputMap, outputDataSet := BuildMultiOutputStage(t, ctx);
    IndexTableCoversOutputs(t.outputs, t.mainOutputTag);
    BindOutputs(t.outputs, outputMap, outputDataSet, ctx);
  }

  /** The map-partition stage of a multi-output ParDo, with the index table it carries. */
  method BuildMultiOutputStage(t: Transform, ctx: TranslationContext)
    returns (outputMap: map<TupleTag, nat>, outputDataSet: Plan)
    requires t.ParDoBoundMulti? && t.input in ctx.dataSets
    requires forall v :: v in t.sideInputs ==> v in ctx.broadcastDataSets
    requires Distinct(Tags(t.outputs))
    ensures outputMap == IndexTable(Tags(t.outputs), t.mainOutputTag)
    ensures outputDataSet == MultiOutputStage(t, ctx.dataSets, ctx.broadcastDataSets)
  {
    var inputDataSet := ctx.GetInputDataSet(t.input);
    var outputs := t.outputs;
    outputMap := BuildOutputMap(Tags(outputs), t.mainOutputTag);
    var outputCoders := CollectOutputCoders(outputs);
    var broadcasts := TransformSideInputs(t.sideInputs, ctx);
    outputDataSet := MapPartition(MultiOutputDoFnFunction(t.doFn, outputMap), UnionCoderType(outputCoders),
                                  inputDataSet, broadcasts, t.name);
  }

  /** The loop over the declared outputs: each gets a pruning stage selecting its own tag index. */
  method BindOutputs(outputs: seq<TaggedOutput>, outputMap: map<TupleTag, nat>, outputDataSet: Plan,
                     ctx: TranslationContext)
    requires forall i :: 0 <= i < |outputs| ==> outputs[i].tag in outputMap
    modifies ctx`dataSets
    ensures ctx.dataSets == BindPruningStages(old(ctx.dataSets), outputs, outputMap, outputDataSet, |outputs|)
  {
    ghost var before := ctx.dataSets;
    for i := 0 to |outputs|
      invariant ctx.dataSets == BindPruningStages(before, outputs, outputMap, outputDataSet, i)
    {
      var output := outputs[i];
      var outputTag := outputMap[output.tag];
      ctx.SetOutputDataSet(output.collection, PruningStage(outputTag, outputDataSet, output.collection));
    }
  }

  /** Every tag of a bundle has an entry in its index table. */
  lemma IndexTableCoversOutputs(outputs: seq<TaggedOutput>, main: TupleTag)
    ensures forall i :: 0 <= i < |outputs| ==> outputs[i].tag in IndexTable(Tags(outputs), main)
  {
    var tags := Tags(outputs);
    forall i | 0 <= i < |outputs| ensures outputs[i].tag in IndexTable(tags, main) {
      assert tags[i] == outputs[i].tag;
    }
  }

  // ---------------------------------------------------------------------------
  //  Flatten, views, literals
  // ---------------------------------------------------------------------------

  /** The left fold of `union` over the inputs' datasets, in list order; no inputs leaves the null reference. */
  method TranslateFlatten(t: Transform, ctx: TranslationContext)
    requires t.FlattenPCollectionList?
    requires forall c :: c in t.inputs ==> c in ctx.dataSets
    modifies ctx`dataSets
    ensures ctx.dataSets == Bind(old(ctx.dataSets), t.output, FoldUnion(DataSetsOf(old(ctx.dataSets), t.inputs)))
  {
    ghost var ds := DataSetsOf(ctx.dataSets, t.inputs);
    var allInputs := t.inputs;
    var result := Null;
    for i := 0 to |allInputs|
      invariant result == FoldUnion(ds[..i])
    {
      var current := ctx.GetInputDataSet(allInputs[i]);
      assert ds[..i + 1][..i] == ds[..i];
      if result == Null {
        result := current;
      } else {
        result := Union(result, current);
      }
    }
    assert ds[..|allInputs|] == ds;
    ctx.SetOutputDataSet(t.output, result);
  }

  /** Registers the input's dataset as the broadcast dataset of the view; binds no output collection. */
  method TranslateCreatePCollectionView(t: Transform, ctx: TranslationContext)
    requires t.CreatePCollectionView? && t.input in ctx.dataSets
    modifies ctx`broadcastDataSets
    ensures ctx.broadcastDataSets == old(ctx.broadcastDataSets)[t.view := ctx.dataSets[t.input]]
  {
    var inputDataSet := ctx.GetInputDataSet(t.input);
    ctx.SetSideInputDataSet(t.view, inputDataSet);
  }

  /**
   * Serializes every literal with the output's coder (`encode`), then binds
   * the output to a flat-map over a one-element seed dataset that emits them.
   * A literal that cannot be encoded aborts the translation.
   */
  method TranslateCreate(t: Transform, ctx: TranslationContext, encode: Element -> Option<Bytes>)
    returns (outcome: Outcome)
    requires t.CreateValues?
    modifies ctx`dataSets
    ensures outcome.Done? <==> forall i :: 0 <= i < |t.elements| ==> encode(t.elements[i]).Some?
    ensures outcome.Failed? ==>
      && ctx.dataSets == old(ctx.dataSets)
      && outcome.error.EncodingFailed?
      && exists i :: 0 <= i < |t.elements| && t.elements[i] == outcome.error.element && encode(t.elements[i]).None?
                     && forall j :: 0 <= j < i ==> encode(t.elements[j]).Some?
    ensures outcome.Done? ==> ctx.dataSets == Bind(old(ctx.dataSets), t.output,
      FlatMap(CreateFunction(Encoded(t.elements, encode), t.output.coder), FromElements([1]), t.name))
  {
    var serialized := SerializeElements(t.elements, encode);
    if serialized.Failure? {
      return Failed(EncodingFailed(serialized.error));
    }
    var serializedElements := serialized.value;
    assert serializedElements == Encoded(t.elements, encode);
    var initDataSet := FromElements([1]);
    var flatMapFunction := CreateFunction(serializedElements, t.output.coder);
    ctx.SetOutputDataSet(t.output, FlatMap(flatMapFunction, initDataSet, t.name));
    outcome := Done;
  }
}
