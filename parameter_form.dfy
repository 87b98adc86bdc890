/** The parameters node's form: a list of request sources, each with a list of required field names. */
module ParameterForm {
  import opened Wrappers
  import Seqs

  /** A request source: where parameters come from ("" when unset) and the names it requires, if listed. */
  datatype Source = Source(from: string, required: Option<seq<string>>)

  /** The names a source requires, an unlisted list read as empty. */
  function RequiredOf(s: Source): seq<string> {
    s.required.GetOr([])
  }

  /** The `sources` value of the form. */
  class ParameterFields {
    var sources: seq<Source>

    constructor (sources: seq<Source>)
      ensures this.sources == sources
    {
      this.sources := sources;
    }

    /** Removes the source at `index`; the others keep their order. */
    method RemoveSource(index: nat)
      requires index < |sources|
      modifies this
      ensures |sources| == |old(sources)| - 1
      ensures sources == old(sources)[..index] + old(sources)[index + 1..]
    {
      var newSources := sources;
      newSources := Seqs.RemoveAt(newSources, index);
      sources := newSources;
    }

    /** Appends a query source with no required names. */
    method AddSource()
      modifies this
      ensures sources == old(sources) + [Source("query", None)]
    {
      sources := sources + [Source("query", None)];
    }

    /** Renames the required field at `fieldIndex` of source `index`; every other name and source is kept. */
    method EditRequired(index: nat, fieldIndex: nat, value: string)
      requires index < |sources| && fieldIndex < |RequiredOf(sources[index])|
      modifies this
      ensures |sources| == |old(sources)|
      ensures forall i :: 0 <= i < |sources| && i != index ==> sources[i] == old(sources)[i]
      ensures sources[index] == old(sources)[index].(required := Some(RequiredOf(old(sources)[index])[fieldIndex := value]))
    {
      var newValues := RequiredOf(sources[index]);
      newValues := newValues[fieldIndex := value];
      sources := sources[index := sources[index].(required := Some(newValues))];
    }

    /** Removes the required field at `fieldIndex` of source `index`; the other names keep their order. */
    method RemoveRequired(index: nat, fieldIndex: nat)
      requires index < |sources| && fieldIndex < |RequiredOf(sources[index])|
      modifies this
      ensures |sources| == |old(sources)|
      ensures forall i :: 0 <= i < |sources| && i != index ==> sources[i] == old(sources)[i]
      ensures |RequiredOf(sources[index])| == |RequiredOf(old(sources)[index])| - 1
      ensures sources[index] == old(sources)[index].(required := Some(
        RequiredOf(old(sources)[index])[..fieldIndex] + RequiredOf(old(sources)[index])[fieldIndex + 1..]))
    {
      var newValues := RequiredOf(sources[index]);
      newValues := Seqs.RemoveAt(newValues, fieldIndex);
      sources := sources[index := sources[index].(required := Some(newValues))];
    }

    /** Appends an empty name to source `index`, an unlisted list counting as empty. */
    method AddRequired(index: nat)
      requires index < |sources|
      modifies this
      ensures |sources| == |old(sources)|
      ensures forall i :: 0 <= i < |sources| && i != index ==> sources[i] == old(sources)[i]
      ensures sources[index] == old(sources)[index].(required := Some(RequiredOf(old(sources)[index]) + [""]))
    {
      sources := sources[index := sources[index].(required := Some(RequiredOf(sources[index]) + [""]))];
    }
  }
}
