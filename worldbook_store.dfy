// The worldbook store of vite-project/src/stores/worldbookStore.js: a list of
// entries that starts with one default entry, grows by `addEntry`, shrinks by
// `deleteEntry` and is replaced wholesale by an import of a JSON array.
//
// JSON.parse is an input. Exporting (Blob, object URLs, a DOM anchor) and the
// alerts are not modelled.

module WorldbookStore {
  import opened Js
  import Seqs

  /** `defaultEntry` */
  const DefaultEntry: Json := Obj(map[
    "keys" := Str("关键词"),
    "content" := Str("关于这个关键词的描述..."),
    "isGlobal" := Bool(false),
    "enabled" := Bool(true)])

  /** The entries an import installs, or None when it fails: the text does not parse or is not an array. */
  function ImportedEntries(parsed: Option<Json>): (r: Option<seq<Json>>)
    ensures r.Some? <==> parsed.Some? && parsed.value.Arr?
    ensures r.Some? ==> Arr(r.value) == parsed.value
  {
    if parsed.Some? && parsed.value.Arr? then Some(parsed.value.items) else None
  }

  /** Deleting by an in-range index removes exactly that entry; nothing stops the list from emptying. */
  lemma DeleteEntryInRange(entries: seq<Json>, index: int)
    requires 0 <= index < |entries|
    ensures |Seqs.SpliceOne(entries, index)| == |entries| - 1
    ensures Seqs.SpliceOne(entries, index) == entries[..index] + entries[index + 1..]
    ensures |entries| == 1 ==> Seqs.SpliceOne(entries, index) == []
  {
    assert Seqs.SpliceStart(|entries|, index) == index;
  }

  class WorldbookStore {
    var entries: seq<Json>

    constructor()
      ensures entries == [DefaultEntry]
    {
      entries := [DefaultEntry];
    }

    /** `addEntry`: one copy of the default entry is appended. */
    method AddEntry()
      modifies this
      ensures entries == old(entries) + [DefaultEntry]
    {
      entries := entries + [DefaultEntry];
    }

    /** `deleteEntry(index)`: `splice(index, 1)`, with no lower bound on the list's size. */
    method DeleteEntry(index: int)
      modifies this
      ensures entries == Seqs.SpliceOne(old(entries), index)
    {
      entries := Seqs.SpliceOne(entries, index);
    }

    /** `importWorldbook(jsonData)`, with JSON.parse as `parse`: a JSON array replaces every entry. */
    method ImportWorldbook(jsonData: string, parse: string -> Option<Json>)
      modifies this
      ensures ImportedEntries(parse(jsonData)).None? ==> entries == old(entries)
      ensures ImportedEntries(parse(jsonData)).Some? ==> entries == ImportedEntries(parse(jsonData)).value
    {
      var parsed := parse(jsonData);
      if parsed.Some? && parsed.value.Arr? {
        entries := parsed.value.items;
      }
    }
  }
}
