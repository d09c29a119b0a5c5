/**
 * How `createZip` turns its list of entries into archive appends: one
 * append per entry, in list order, with the entry's metadata cut down to
 * six keys and a `file_<n>` name for entries that bring no metadata.
 */
module Entries {
  import opened Values
  import opened Streams

  /** The metadata keys passed on to the archive. */
  const MetadataKeys: set<string> := {"name", "date", "mode", "prefix", "stats", "store"}

  /** One `{ stream, data }` element of the list; data is Undefined when the element has none. */
  datatype Entry = Entry(stream: Stream, data: Value)

  /** The name given to the entry at 1-based position ordinal when it has no data. */
  function DefaultName(ordinal: nat): (name: string)
    ensures |name| > 5 && name[..5] == "file_"
    ensures name[5..] == Decimal(ordinal)
    ensures IsDigits(name[5..]) && DecimalValue(name[5..]) == ordinal
  {
    DecimalRoundTrip(ordinal);
    var name := "file_" + Decimal(ordinal);
    assert name[5..] == Decimal(ordinal);
    name
  }

  /** Distinct positions get distinct default names. */
  lemma DefaultNamesDistinct(m: nat, n: nat)
    requires m != n
    ensures DefaultName(m) != DefaultName(n)
  {
    var a, b := DefaultName(m), DefaultName(n);
    assert DecimalValue(a[5..]) == m && DecimalValue(b[5..]) == n;
  }

  /**
   * The metadata appended for an entry at 1-based position ordinal. The
   * default applies only when data is absent: data that is present but has
   * no name gets no name.
   */
  function EntryMetadata(data: Value, ordinal: nat): (meta: Options)
    ensures forall k :: k in meta ==> k in MetadataKeys
    ensures data.Undefined? ==> meta == map["name" := Str(DefaultName(ordinal))]
    ensures !data.Undefined? ==> forall k :: k in meta <==> k in MetadataKeys && k in Spread(data)
    ensures !data.Undefined? ==> forall k :: k in meta ==> meta[k] == Spread(data)[k]
  {
    var d := if data.Undefined? then Obj(map["name" := Str(DefaultName(ordinal))]) else data;
    Pick(Spread(d), MetadataKeys)
  }

  /** The appends `createZip` makes for entries, first to last. */
  function Appends(entries: seq<Entry>): (appends: seq<Appended>)
    ensures |appends| == |entries|
    ensures forall i :: 0 <= i < |entries| ==> appends[i].stream == entries[i].stream
  {
    if entries == [] then []
    else
      var last := |entries| - 1;
      Appends(entries[..last]) + [Appended(entries[last].stream, EntryMetadata(entries[last].data, |entries|))]
  }

  /** Exactly one append per entry, in input order, the i-th numbered i + 1. */
  lemma {:induction false} AppendsInOrder(entries: seq<Entry>)
    ensures |Appends(entries)| == |entries|
    ensures forall i :: 0 <= i < |entries| ==>
      Appends(entries)[i] == Appended(entries[i].stream, EntryMetadata(entries[i].data, i + 1))
    decreases |entries|
  {
    if entries != [] {
      var last := |entries| - 1;
      var init := entries[..last];
      AppendsInOrder(init);
      var appends := Appends(entries);
      assert appends == Appends(init) + [Appended(entries[last].stream, EntryMetadata(entries[last].data, last + 1))];
      forall i | 0 <= i < |entries|
        ensures appends[i] == Appended(entries[i].stream, EntryMetadata(entries[i].data, i + 1))
      {
        if i < last {
          assert init[i] == entries[i];
          assert appends[i] == Appends(init)[i];
        }
      }
    }
  }

  /** An entry without data is named after its position, counting every entry before it. */
  lemma DefaultNaming(entries: seq<Entry>, i: nat)
    requires i < |entries| && entries[i].data.Undefined?
    ensures |Appends(entries)| == |entries|
    ensures Appends(entries)[i].meta == map["name" := Str("file_" + Decimal(i + 1))]
  {
    AppendsInOrder(entries);
  }

  /** An entry whose data object has no name is appended without a name. */
  lemma SuppliedDataKeepsNoName(entries: seq<Entry>, i: nat)
    requires i < |entries| && entries[i].data.Obj? && "name" !in entries[i].data.fields
    ensures |Appends(entries)| == |entries|
    ensures "name" !in Appends(entries)[i].meta
  {
    AppendsInOrder(entries);
  }
}
