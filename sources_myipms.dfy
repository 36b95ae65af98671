/** sources/myipms.go: the older copy of the myip.ms list. Its fetch has
    three ways to fail before any line is read (the download, opening the
    zip archive, opening the file inside it); they are represented by one
    outcome, the file's lines or the first of those errors. The line
    transform is the one of sources/lists/myipms.go. */
module SourcesMyIPms {
  import opened Base
  import opened ListEntry
  import opened Streams
  import opened Feeds
  import opened ListsMyIPms

  /** `MyIPmsList`. */
  class MyIPmsList {
    var meta: Metadata

    /** `NewMyIPmsList()`. */
    constructor ()
      ensures meta == Metadata([IPType], "myip.ms", 0, 86400)
    {
      meta := Metadata([IPType], "myip.ms", 0, 86400);
    }

    function GetMetadata(): Metadata
      reads this
    {
      meta
    }

    /** `SetMetadata`: a later `GetMetadata` returns the value set. */
    method SetMetadata(m: Metadata)
      modifies this
      ensures GetMetadata() == m
    {
      meta := m;
    }

    /** `FetchData`: the IP channel is closed on every path; a failed
        download or archive is reported with no entry, and otherwise the
        lines are transformed one by one. */
    method FetchData(entryMap: EntryMap, errorsOut: Chan<Error>, fetched: Result<seq<string>, Error>)
      requires Ready(entryMap, [IPType]) && !errorsOut.closed
      modifies entryMap[IPType], errorsOut
      ensures entryMap[IPType].closed && !errorsOut.closed
      ensures fetched.Failure? ==> entryMap[IPType].items == old(entryMap[IPType].items)
                                   && errorsOut.items == old(errorsOut.items) + [fetched.error]
      ensures fetched.Success? ==> entryMap[IPType].items == old(entryMap[IPType].items) + Oks(Parser(meta.name), fetched.value)
                                   && errorsOut.items == old(errorsOut.items) + Errs(Parser(meta.name), fetched.value)
    {
      var ch := entryMap[IPType];
      if fetched.Failure? {
        errorsOut.Send(fetched.error);
        ch.Close();
        return;
      }
      EmitParsed(ch, errorsOut, fetched.value, Parser(meta.name));
      ch.Close();
    }
  }
}
