/** sources/lists/lineSeperated.go: a list of a single entry type whose
    data source yields one index per line. The data factory is represented
    by what calling it produces: the scanner's lines, or the error it
    returns instead of a reader. */
module ListsLineSeparated {
  import opened Base
  import opened GoStrings
  import opened ListEntry
  import opened Streams
  import opened Feeds

  /** The entries of a line-per-index feed: one per non-empty line, the line
      itself as the index, in line order. */
  function LineEntries(lines: seq<string>, source: string): (r: seq<BlacklistedEntry>)
    ensures |r| <= |lines|
  {
    if |lines| == 0 then []
    else
      var last := lines[|lines| - 1];
      LineEntries(lines[..|lines| - 1], source) + (if last == "" then [] else [NewBlacklistedEntry(last, source)])
  }

  /** Lines are processed in order: the entries of two runs of lines are
      the entries of the first run followed by those of the second. */
  lemma {:induction false} LineEntriesConcat(a: seq<string>, b: seq<string>, source: string)
    ensures LineEntries(a + b, source) == LineEntries(a, source) + LineEntries(b, source)
    decreases |b|
  {
    if |b| == 0 {
      assert a + b == a;
    } else {
      assert (a + b)[..|a + b| - 1] == a + b[..|b| - 1];
      LineEntriesConcat(a, b[..|b| - 1], source);
    }
  }

  /** An entry is emitted exactly when some non-empty line is its index. */
  lemma {:induction false} LineEntriesMembers(lines: seq<string>, source: string, e: BlacklistedEntry)
    ensures e in LineEntries(lines, source) <==>
              exists k :: 0 <= k < |lines| && lines[k] != "" && e == NewBlacklistedEntry(lines[k], source)
  {
    if |lines| > 0 {
      var init := lines[..|lines| - 1];
      LineEntriesMembers(init, source, e);
      if e in LineEntries(init, source) {
        var k :| 0 <= k < |init| && init[k] != "" && e == NewBlacklistedEntry(init[k], source);
        assert lines[k] == init[k];
      }
      if exists k :: 0 <= k < |lines| && lines[k] != "" && e == NewBlacklistedEntry(lines[k], source) {
        var k :| 0 <= k < |lines| && lines[k] != "" && e == NewBlacklistedEntry(lines[k], source);
        if k < |init| { assert init[k] == lines[k]; }
      }
    }
  }

  /** Without empty lines every line is emitted, verbatim and in order. */
  lemma {:induction false} LineEntriesVerbatim(lines: seq<string>, source: string)
    requires forall k :: 0 <= k < |lines| ==> lines[k] != ""
    ensures |LineEntries(lines, source)| == |lines|
    ensures forall k :: 0 <= k < |lines| ==> LineEntries(lines, source)[k] == NewBlacklistedEntry(lines[k], source)
  {
    if |lines| > 0 {
      LineEntriesVerbatim(lines[..|lines| - 1], source);
    }
  }

  /** The lines of the reader in the repository's test: its literal opens
      with a newline, then four addresses, each ended by a newline. */
  const TestLines: seq<string> := ["", "192.168.0.1", "192.168.0.2", "192.168.0.3", "10.10.10.10"]

  const TestBuffer: string := Join(TestLines, "\n") + "\n"

  /** Scanning the test's reader gives back its lines, and the list emits
      the four addresses, "10.10.10.10" among them. */
  lemma TestBufferEntries(source: string)
    ensures ScanLines(TestBuffer) == TestLines
    ensures LineEntries(ScanLines(TestBuffer), source) ==
              [NewBlacklistedEntry("192.168.0.1", source), NewBlacklistedEntry("192.168.0.2", source),
               NewBlacklistedEntry("192.168.0.3", source), NewBlacklistedEntry("10.10.10.10", source)]
    ensures NewBlacklistedEntry("10.10.10.10", source) in LineEntries(ScanLines(TestBuffer), source)
  {
    var xs := TestLines;
    ScanLinesJoin(xs);
    LineEntriesConcat([""], xs[1..], source);
    assert [""] + xs[1..] == xs;
    LineEntriesVerbatim(xs[1..], source);
  }

  /** `lineSeperatedList`. */
  class LineSeparatedList {
    var meta: Metadata
    const dataSource: Result<seq<string>, Error>

    /** `NewLineSeperatedList(entryType, name, cacheTime, dataFactory)`. */
    constructor (entryType: EntryType, name: string, cacheTime: int64, dataFactory: Result<seq<string>, Error>)
      ensures meta == Metadata([entryType], name, 0, cacheTime) && dataSource == dataFactory
    {
      meta := Metadata([entryType], name, 0, cacheTime);
      dataSource := dataFactory;
    }

    function GetMetadata(): Metadata
      reads this
    {
      meta
    }

    /** `SetMetadata`: a later `GetMetadata` returns the value set. */
    method SetMetadata(m: Metadata)
      modifies this
      ensures GetMetadata() == m
    {
      meta := m;
    }

    /** `FetchData`. `Types[0]` panics when the metadata has no type;
        otherwise the channel of the first type is closed on every path, a
        data source error is reported with no entry, and the lines are
        emitted as `LineEntries` says. */
    method FetchData(entryMap: EntryMap, errorsOut: Chan<Error>) returns (panicked: bool)
      requires |meta.types| > 0 ==> Ready(entryMap, meta.types[..1])
      requires !errorsOut.closed
      modifies if |meta.types| > 0 && meta.types[0] in entryMap then {entryMap[meta.types[0]]} else {}, errorsOut
      ensures panicked <==> |meta.types| == 0
      ensures panicked ==> errorsOut.items == old(errorsOut.items)
      ensures !panicked ==>
                var ch := entryMap[meta.types[0]];
                ch.closed && !errorsOut.closed &&
                match dataSource
                case Failure(err) => ch.items == old(ch.items) && errorsOut.items == old(errorsOut.items) + [err]
                case Success(lines) => ch.items == old(ch.items) + LineEntries(lines, meta.name)
                                       && errorsOut.items == old(errorsOut.items)
    {
      if |meta.types| == 0 {
        return true;
      }
      var ch := entryMap[meta.types[0]];
      panicked := false;
      if dataSource.Failure? {
        errorsOut.Send(dataSource.error);
        ch.Close();
        return;
      }
      EmitLines(ch, dataSource.value, meta.name);
      ch.Close();
    }
  }

  /** The scanner loop shared by the line-per-index lists: each non-empty
      line is sent as an entry of the given source. */
  method EmitLines(ch: Chan<BlacklistedEntry>, lines: seq<string>, source: string)
    requires !ch.closed
    modifies ch
    ensures !ch.closed && ch.items == old(ch.items) + LineEntries(lines, source)
  {
    for k := 0 to |lines|
      invariant !ch.closed && ch.items == old(ch.items) + LineEntries(lines[..k], source)
    {
      assert lines[..k + 1][..k] == lines[..k];
      if lines[k] == "" {
        continue;
      }
      ch.Send(NewBlacklistedEntry(lines[k], source));
    }
    assert lines[..|lines|] == lines;
  }
}
