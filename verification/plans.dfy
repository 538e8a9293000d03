/**
 * The logical pipeline vocabulary (collections, views, tags, transform nodes)
 * and the physical plan terms the batch translators build on the engine.
 * Every engine operator is an uninterpreted constructor that records its
 * arguments: what an operator computes at run time is not part of this model.
 */
module Plans {
  import opened Wrappers

  /** Opaque handles for objects whose internals are not modelled. */
  datatype Coder = Coder(id: nat)
  datatype UserFn = UserFn(id: nat)              // a DoFn or a KeyedCombineFn
  datatype BoundedSource = BoundedSource(id: nat)
  datatype SinkSpec = SinkSpec(id: nat)          // the Write.Bound sink descriptor
  datatype AvroClass = AvroClass(name: string)   // the Avro record class of a read or write
  datatype CoGbkSchema = CoGbkSchema(id: nat)
  datatype Element = Element(id: nat)            // a literal element of Create.Values

  type Bytes = seq<bv8>

  /** A logical collection; its identity is what the context is keyed on. */
  datatype PCollection = PCollection(id: nat, name: string, coder: Coder)

  /** A side-input view; `tagId` is the id of its internal tag. */
  datatype PCollectionView = PCollectionView(id: nat, tagId: string)

  datatype TupleTag = TupleTag(id: string)

  /** One entry of a tagged output bundle or of a keyed collection tuple. */
  datatype TaggedOutput = TaggedOutput(tag: TupleTag, collection: PCollection)

  /** The field name every keyed grouping in the translators selects. */
  const KeyField: string := "key"

  /** Wrapped user functions handed to engine operators. */
  datatype GroupReduceFn =
    | KeyedListAggregation            // collects all values of a key into one list
    | ReduceFunction(fn: UserFn)      // final per-key reduce of partial accumulators

  datatype GroupCombineFn = PartialReduceFunction(fn: UserFn)

  datatype MapPartitionFn =
    | DoFnFunction(fn: UserFn)
    | MultiOutputDoFnFunction(fn: UserFn, outputMap: map<TupleTag, nat>)

  datatype FlatMapFn =
    | MultiOutputPruningFunction(outputTag: nat)
    | CreateFunction(serializedElements: seq<Bytes>, coder: Coder)

  datatype CoGroupFn = CoGroupKeyedListAggregator(schema: CoGbkSchema, tag1: TupleTag, tag2: TupleTag)

  /** Result type of a map-partition operator. */
  datatype TypeInfo =
    | CollectionType(collection: PCollection)   // the type information of a logical collection
    | UnionCoderType(coders: seq<Coder>)        // a union coder over the given variants, in order

  datatype InputFormat =
    | SourceInputFormat(source: BoundedSource)
    | AvroInputFormat(path: string, avroType: AvroClass)
    | TextInputFormat(path: string)

  datatype OutputFormat =
    | SinkOutputFormat(sink: SinkSpec)
    | AvroOutputFormat(path: string, avroType: AvroClass)
    | TextOutputFormat(path: string)
    | PrintingOutputFormat(prefix: string)

  /** A broadcast set attached to an operator under a name. */
  datatype Broadcast = Broadcast(dataSet: Plan, name: string)

  /**
   * A physical dataset. `Null` is the null reference that a flatten of no
   * (non-null) inputs leaves behind.
   */
  datatype Plan =
    | Null
    | DataSource(format: InputFormat, name: string)
    | FromElements(values: seq<int>)
    | GroupReduce(keys: seq<string>, reducer: GroupReduceFn, input: Plan, name: string)
    | GroupCombine(keys: seq<string>, combiner: GroupCombineFn, accumulatorCoder: Option<Coder>, input: Plan, name: string)
    | MapPartition(fn: MapPartitionFn, resultType: TypeInfo, input: Plan, broadcasts: seq<Broadcast>, name: string)
    | FlatMap(flatMapFn: FlatMapFn, input: Plan, name: string)
    | Union(left: Plan, right: Plan)
    | CoGroup(left: Plan, right: Plan, leftKeys: seq<string>, rightKeys: seq<string>, aggregator: CoGroupFn, name: string)

  /** An output operator registered with the execution environment; `None` parallelism is the engine default. */
  datatype DataSink = DataSink(input: Plan, format: OutputFormat, name: Option<string>, parallelism: Option<nat>)

  /** A value that appears in a warning about an untranslated option. */
  datatype LoggedValue = Text(text: string) | Flag(flag: bool)

  /** One logged warning: the option's label and the requested value. */
  datatype Warning = Warning(option: string, value: LoggedValue)

  /** The concrete class of a transform, which is what the registry is keyed on. */
  datatype TransformKind =
    | ReadBoundedKind
    | AvroIOReadKind
    | AvroIOWriteKind
    | TextIOReadKind
    | TextIOWriteKind
    | ConsoleIOWriteKind
    | WriteBoundKind
    | GroupByKeyKind
    | CombinePerKeyKind
    | ParDoBoundKind
    | ParDoBoundMultiKind
    | FlattenPCollectionListKind
    | CreatePCollectionViewKind
    | CreateValuesKind
    | CoGroupByKeyKind
    | UnregisteredKind(className: string)

  /**
   * A transform node together with what the context reports as its input and
   * output. `accumulatorCoder` is what the combine function's coder lookup
   * yields (absent when it cannot provide one); `avroType` is the Avro record
   * class the transform was built for.
   */
  datatype Transform =
    | ReadBounded(name: string, source: BoundedSource, output: PCollection)
    | AvroIORead(name: string, filepattern: string, avroType: AvroClass, output: PCollection)
    | AvroIOWrite(name: string, input: PCollection, filenamePrefix: string, filenameSuffix: string,
                  numShards: int, shardNameTemplate: string, avroType: AvroClass)
    | TextIORead(name: string, filepattern: string, compressionType: string, needsValidation: bool, output: PCollection)
    | TextIOWrite(name: string, input: PCollection, filenamePrefix: string, filenameSuffix: string,
                  needsValidation: bool, numShards: int, shardNameTemplate: string)
    | ConsoleIOWrite(name: string, input: PCollection)
    | WriteBound(name: string, input: PCollection, sink: SinkSpec)
    | GroupByKey(name: string, input: PCollection, output: PCollection)
    | CombinePerKey(name: string, input: PCollection, output: PCollection, combineFn: UserFn, accumulatorCoder: Option<Coder>)
    | ParDoBound(name: string, input: PCollection, output: PCollection, doFn: UserFn, sideInputs: seq<PCollectionView>)
    | ParDoBoundMulti(name: string, input: PCollection, outputs: seq<TaggedOutput>, mainOutputTag: TupleTag,
                      doFn: UserFn, sideInputs: seq<PCollectionView>)
    | FlattenPCollectionList(name: string, inputs: seq<PCollection>, output: PCollection)
    | CreatePCollectionView(name: string, input: PCollection, view: PCollectionView)
    | CreateValues(name: string, elements: seq<Element>, output: PCollection)
    | CoGroupByKey(name: string, keyedCollections: seq<TaggedOutput>, schema: CoGbkSchema, output: PCollection)
    | OtherTransform(name: string, className: string)
  {
    /** The transform's concrete class. */
    function Kind(): TransformKind {
      match this
      case ReadBounded(_, _, _) => ReadBoundedKind
      case AvroIORead(_, _, _, _) => AvroIOReadKind
      case AvroIOWrite(_, _, _, _, _, _, _) => AvroIOWriteKind
      case TextIORead(_, _, _, _, _) => TextIOReadKind
      case TextIOWrite(_, _, _, _, _, _, _) => TextIOWriteKind
      case ConsoleIOWrite(_, _) => ConsoleIOWriteKind
      case WriteBound(_, _, _) => WriteBoundKind
      case GroupByKey(_, _, _) => GroupByKeyKind
      case CombinePerKey(_, _, _, _, _) => CombinePerKeyKind
      case ParDoBound(_, _, _, _, _) => ParDoBoundKind
      case ParDoBoundMulti(_, _, _, _, _, _) => ParDoBoundMultiKind
      case FlattenPCollectionList(_, _, _) => FlattenPCollectionListKind
      case CreatePCollectionView(_, _, _) => CreatePCollectionViewKind
      case CreateValues(_, _, _) => CreateValuesKind
      case CoGroupByKey(_, _, _, _) => CoGroupByKeyKind
      case OtherTransform(_, c) => UnregisteredKind(c)
    }
  }

  /** The tags of a tagged bundle, in the bundle's iteration order. */
  function Tags(outputs: seq<TaggedOutput>): (tags: seq<TupleTag>)
    ensures |tags| == |outputs|
    ensures forall i :: 0 <= i < |outputs| ==> tags[i] == outputs[i].tag
  {
    seq(|outputs|, i requires 0 <= i < |outputs| => outputs[i].tag)
  }

  /** No element occurs twice. */
  predicate Distinct<T(==)>(s: seq<T>) {
    forall i, j :: 0 <= i < j < |s| ==> s[i] != s[j]
  }
}
