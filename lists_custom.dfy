/** sources/lists/customBL.go: a list of a single entry type, cached for a
    day, whose data source always yields a reader; it is represented by the
    lines the scanner reads from it. */
module ListsCustom {
  import opened Base
  import opened ListEntry
  import opened Streams
  import opened Feeds
  import opened ListsLineSeparated

  /** `customList`. */
  class CustomList {
    var meta: Metadata
    const dataSource: seq<string>

    /** `NewCustomList(entryType, name, dataFactory)`. */
    constructor (entryType: EntryType, name: string, dataFactory: seq<string>)
      ensures meta == Metadata([entryType], name, 0, 86400) && dataSource == dataFactory
    {
      meta := Metadata([entryType], name, 0, 86400);
      dataSource := dataFactory;
    }

    function GetMetadata(): Metadata
      reads this
    {
      meta
    }

    /** `SetMetadata`: a later `GetMetadata` returns the value set. */
    method SetMetadata(m: Metadata)
      modifies this
      ensures GetMetadata() == m
    {
      meta := m;
    }

    /** `FetchData`: panics on metadata without a type; otherwise emits one
        entry per non-empty line, in order, and closes the channel of the
        first type. */
    method FetchData(entryMap: EntryMap, errorsOut: Chan<Error>) returns (panicked: bool)
      requires |meta.types| > 0 ==> Ready(entryMap, meta.types[..1])
      modifies if |meta.types| > 0 && meta.types[0] in entryMap then {entryMap[meta.types[0]]} else {}
      ensures panicked <==> |meta.types| == 0
      ensures !panicked ==>
                var ch := entryMap[meta.types[0]];
                ch.closed && ch.items == old(ch.items) + LineEntries(dataSource, meta.name)
    {
      if |meta.types| == 0 {
        return true;
      }
      var ch := entryMap[meta.types[0]];
      EmitLines(ch, dataSource, meta.name);
      ch.Close();
      panicked := false;
    }
  }
}
