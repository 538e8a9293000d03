/**
 * The translator registry: a fixed table from a transform's concrete class to
 * the translator that handles it, filled once by a static initializer.
 */
module Registry {
  import opened Wrappers
  import opened Plans

  /** The batch translators, one per supported transform class. */
  datatype Translator =
    | CreatePCollectionViewTranslator
    | CombinePerKeyTranslator
    | CreateTranslator
    | FlattenPCollectionTranslator
    | GroupByKeyTranslator
    | ParDoBoundMultiTranslator
    | ParDoBoundTranslator
    | CoGroupByKeyTranslator
    | AvroIOReadTranslator
    | AvroIOWriteTranslator
    | ReadSourceTranslator
    | WriteSinkTranslator
    | TextIOReadTranslator
    | TextIOWriteTranslator
    | ConsoleIOWriteTranslator

  /** The transform class a translator is declared for (its type argument). */
  function Handles(t: Translator): (r: TransformKind) {
    match t
    case CreatePCollectionViewTranslator => CreatePCollectionViewKind
    case CombinePerKeyTranslator => CombinePerKeyKind
    case CreateTranslator => CreateValuesKind
    case FlattenPCollectionTranslator => FlattenPCollectionListKind
    case GroupByKeyTranslator => GroupByKeyKind
    case ParDoBoundMultiTranslator => ParDoBoundMultiKind
    case ParDoBoundTranslator => ParDoBoundKind
    case CoGroupByKeyTranslator => CoGroupByKeyKind
    case AvroIOReadTranslator => AvroIOReadKind
    case AvroIOWriteTranslator => AvroIOWriteKind
    case ReadSourceTranslator => ReadBoundedKind
    case WriteSinkTranslator => WriteBoundKind
    case TextIOReadTranslator => TextIOReadKind
    case TextIOWriteTranslator => TextIOWriteKind
    case ConsoleIOWriteTranslator => ConsoleIOWriteKind
  }

  /**
   * A registry that maps every class to the translator declared for it, and
   * holds nothing else.
   */
  ghost predicate RegistersExactlyDeclared(translators: map<TransformKind, Translator>) {
    && (forall t: Translator :: Handles(t) in translators && translators[Handles(t)] == t)
    && (forall k :: k in translators ==> Handles(translators[k]) == k)
  }

  /** The static initializer: one registration per supported class. */
  method RegisterKnownTranslators() returns (translators: map<TransformKind, Translator>)
    ensures forall t: Translator :: Handles(t) in translators && translators[Handles(t)] == t
    ensures forall k :: k in translators ==> Handles(translators[k]) == k
    ensures forall c :: UnregisteredKind(c) !in translators
  {
    translators := map[];
    translators := translators[CreatePCollectionViewKind := CreatePCollectionViewTranslator];
    translators := translators[CombinePerKeyKind := CombinePerKeyTranslator];
    translators := translators[CreateValuesKind := CreateTranslator];
    translators := translators[FlattenPCollectionListKind := FlattenPCollectionTranslator];
    translators := translators[GroupByKeyKind := GroupByKeyTranslator];
    translators := translators[ParDoBoundMultiKind := ParDoBoundMultiTranslator];
    translators := translators[ParDoBoundKind := ParDoBoundTranslator];
    translators := translators[CoGroupByKeyKind := CoGroupByKeyTranslator];
    translators := translators[AvroIOReadKind := AvroIOReadTranslator];
    translators := translators[AvroIOWriteKind := AvroIOWriteTranslator];
    translators := translators[ReadBoundedKind := ReadSourceTranslator];
    translators := translators[WriteBoundKind := WriteSinkTranslator];
    translators := translators[TextIOReadKind := TextIOReadTranslator];
    translators := translators[TextIOWriteKind := TextIOWriteTranslator];
    translators := translators[ConsoleIOWriteKind := ConsoleIOWriteTranslator];
  }

  /** Looks up the translator registered for the transform's concrete class. */
  function GetTranslator(translators: map<TransformKind, Translator>, transform: Transform): (r: Option<Translator>) {
    var k := transform.Kind();
    if k in translators then Some(translators[k]) else None
  }

  /**
   * Over the registry the static initializer builds, lookup yields exactly
   * the translator declared for the transform's class, and nothing for a
   * class that was never registered.
   */
  lemma GetTranslatorExact(translators: map<TransformKind, Translator>, transform: Transform)
    requires RegistersExactlyDeclared(translators)
    ensures forall t :: GetTranslator(translators, transform) == Some(t) <==> Handles(t) == transform.Kind()
    ensures GetTranslator(translators, transform).None? <==> transform.OtherTransform?
  {
    var k := transform.Kind();
    if !transform.OtherTransform? {
      var t := match k
        case ReadBoundedKind => ReadSourceTranslator
        case AvroIOReadKind => AvroIOReadTranslator
        case AvroIOWriteKind => AvroIOWriteTranslator
        case TextIOReadKind => TextIOReadTranslator
        case TextIOWriteKind => TextIOWriteTranslator
        case ConsoleIOWriteKind => ConsoleIOWriteTranslator
        case WriteBoundKind => WriteSinkTranslator
        case GroupByKeyKind => GroupByKeyTranslator
        case CombinePerKeyKind => CombinePerKeyTranslator
        case ParDoBoundKind => ParDoBoundTranslator
        case ParDoBoundMultiKind => ParDoBoundMultiTranslator
        case FlattenPCollectionListKind => FlattenPCollectionTranslator
        case CreatePCollectionViewKind => CreatePCollectionViewTranslator
        case CreateValuesKind => CreateTranslator
        case CoGroupByKeyKind => CoGroupByKeyTranslator
        case UnregisteredKind(_) => ReadSourceTranslator;
      assert Handles(t) == k;
      assert k in translators;
    } else {
      assert forall j :: j in translators ==> !j.UnregisteredKind? by {
        forall j | j in translators ensures !j.UnregisteredKind? {
          assert Handles(translators[j]) == j;
        }
      }
    }
  }
}
