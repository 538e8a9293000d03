/**
 * The translation context: the state threaded through one translation pass.
 * It binds logical collections to physical datasets, side-input views to
 * broadcast datasets, collects the data sinks registered with the execution
 * environment, and keeps the log of warnings the translators emit.
 */
module Context {
  import opened Plans

  /**
   * Binding an output dataset is write-once: a collection that already has a
   * dataset keeps it, every other binding is untouched.
   */
  function Bind(dataSets: map<PCollection, Plan>, c: PCollection, p: Plan): (r: map<PCollection, Plan>)
    ensures r.Keys == dataSets.Keys + {c}
    ensures c in dataSets ==> r[c] == dataSets[c]
    ensures c !in dataSets ==> r[c] == p
    ensures forall d :: d in dataSets ==> r[d] == dataSets[d]
  {
    if c in dataSets then dataSets else dataSets[c := p]
  }

  class TranslationContext {
    var dataSets: map<PCollection, Plan>
    var broadcastDataSets: map<PCollectionView, Plan>
    /** The data sinks registered with the execution environment, oldest first. */
    var sinks: seq<DataSink>
    /** Warnings about options the translators do not translate, oldest first. */
    ghost var warnings: seq<Warning>

    constructor ()
      ensures dataSets == map[] && broadcastDataSets == map[] && sinks == [] && warnings == []
    {
      dataSets := map[];
      broadcastDataSets := map[];
      sinks := [];
      warnings := [];
    }

    /** The dataset of an already translated collection. */
    function GetInputDataSet(c: PCollection): Plan
      reads this
      requires c in dataSets
    {
      dataSets[c]
    }

    /** The broadcast dataset registered for a view. */
    function GetSideInputDataSet(v: PCollectionView): Plan
      reads this
      requires v in broadcastDataSets
    {
      broadcastDataSets[v]
    }

    /** Binds an output collection to its dataset, keeping an earlier binding (see `Bind`). */
    method SetOutputDataSet(c: PCollection, p: Plan)
      modifies this`dataSets
      ensures dataSets == Bind(old(dataSets), c, p)
    {
      if c !in dataSets {
        dataSets := dataSets[c := p];
      }
    }

    /** Registers the broadcast dataset of a side-input view. */
    method SetSideInputDataSet(v: PCollectionView, p: Plan)
      modifies this`broadcastDataSets
      ensures broadcastDataSets == old(broadcastDataSets)[v := p]
    {
      broadcastDataSets := broadcastDataSets[v := p];
    }

    /** Registers an output operator with the execution environment. */
    method AddSink(s: DataSink)
      modifies this`sinks
      ensures sinks == old(sinks) + [s]
    {
      sinks := sinks + [s];
    }

    /** Logs a warning about an option the translators do not translate. */
    method Warn(w: Warning)
      modifies this`warnings
      ensures warnings == old(warnings) + [w]
    {
      warnings := warnings + [w];
    }
  }
}
