/** sources/lists/myipms.go: the myip.ms blacklist of IP addresses. Each
    line of the unzipped file is reduced to a record by a pure transform
    (sources/myipms.go:46-119 repeats the same transform in a copy of its
    own); the scanner loop around it sends the records. The download and
    unzipping are represented by their outcome: the file's lines, or the
    error that stopped them. */
module ListsMyIPms {
  import opened Base
  import opened GoStrings
  import opened ListEntry
  import opened Streams
  import opened Feeds

  const MissingField: Error := Error("malformed line from myip.ms; missing field")

  /** The `id` field: the parsed integer, or -1 when it does not parse. */
  function IdOf(field: string): (id: int)
    ensures ParseInt(field).Some? ==> id == ParseInt(field).value
    ensures ParseInt(field).None? ==> id == -1
  {
    match ParseInt(field)
    case Some(v) => v
    case None => -1
  }

  /** The extra data of a record with the given fields. */
  function RecordData(date: string, host: string, country: string, id: int): map<string, Extra>
  {
    map["date" := Str(date), "host" := Str(host), "country" := Str(country), "id" := Int(id)]
  }

  /** One scanned line: None when it is skipped (empty or a comment once
      its whitespace is gone), an error when it has fewer than five
      comma-separated fields once every '#' is a comma, and the entry
      otherwise. */
  function ParseLine(line: string, source: string): (r: Option<Result<BlacklistedEntry, Error>>)
    ensures r.Some? && r.value.Failure? ==> r.value.error == MissingField
    ensures r.Some? && r.value.Success? ==> r.value.value.source == source
  {
    var clean := RemoveSpace(line);
    if |clean| == 0 || clean[0] == '#' then None
    else
      var fields := Split(ReplaceAll(clean, '#', ','), ",");
      if |fields| < 5 then Some(Failure(MissingField))
      else Some(Success(BlacklistedEntry(fields[0], source, RecordData(fields[1], fields[2], fields[3], IdOf(fields[4])))))
  }

  /** A field as it appears in a record: no whitespace, comma or '#'. */
  predicate Clean(s: string)
  {
    Free(s, ',') && Free(s, '#') && forall i :: 0 <= i < |s| ==> !IsSpace(s[i])
  }

  /** Whitespace is gone before anything else happens: the index and the
      text fields of an entry hold no space, comma or '#'. */
  lemma ParsedFieldsClean(line: string, source: string)
    requires ParseLine(line, source).Some? && ParseLine(line, source).value.Success?
    ensures var e := ParseLine(line, source).value.value;
            Clean(e.index) && e.extraData.Keys == {"date", "host", "country", "id"}
            && Clean(e.extraData["date"].s) && Clean(e.extraData["host"].s) && Clean(e.extraData["country"].s)
  {
    var clean := RemoveSpace(line);
    var csv := ReplaceAll(clean, '#', ',');
    SplitPieces(csv, ',');
    var fields := Split(csv, ",");
    forall k, j | 0 <= k < 4 && 0 <= j < |fields[k]| ensures !IsSpace(fields[k][j]) && fields[k][j] != '#' {
      var c := fields[k][j];
      assert c in csv;
      var i :| 0 <= i < |csv| && csv[i] == c;
      assert !IsSpace(clean[i]);
    }
  }

  /** A record line of the feed, "ip # date, host, country, id" with any
      whitespace, is read back field by field. */
  lemma ParseRecordLine(line: string, source: string, ip: string, date: string, host: string, country: string, id: string)
    requires RemoveSpace(line) == ip + "#" + Join([date, host, country, id], ",")
    requires |ip| > 0 && Clean(ip) && Clean(date) && Clean(host) && Clean(country) && Clean(id)
    ensures ParseLine(line, source) == Some(Success(BlacklistedEntry(ip, source, RecordData(date, host, country, IdOf(id)))))
  {
    var rest := Join([date, host, country, id], ",");
    var clean := RemoveSpace(line);
    assert clean[0] == ip[0];
    JoinFree([date, host, country, id], '#');
    ReplaceAllConcat(ip + "#", rest, '#', ',');
    ReplaceAllConcat(ip, "#", '#', ',');
    ReplaceAllFree(ip, '#', ',');
    ReplaceAllFree(rest, '#', ',');
    assert ReplaceAll("#", '#', ',') == ",";
    var csv := ReplaceAll(clean, '#', ',');
    assert csv == ip + "," + rest;
    var fields := [ip, date, host, country, id];
    JoinCons(ip, [date, host, country, id], ",");
    assert [ip] + [date, host, country, id] == fields;
    SplitJoin(fields, ',');
    assert Split(csv, ",") == fields;
  }

  /** A line is skipped exactly when, with its whitespace gone, it is
      empty or starts with '#'. */
  lemma ParseLineSkips(line: string, source: string)
    ensures ParseLine(line, source).None? <==> (|RemoveSpace(line)| == 0 || RemoveSpace(line)[0] == '#')
  {
  }

  /** A line that is not skipped gives the missing-field error exactly when,
      with its whitespace gone, it holds fewer than four separators (',' or
      '#'), that is fewer than five fields. */
  lemma ParseLineFails(line: string, source: string)
    requires ParseLine(line, source).Some?
    ensures ParseLine(line, source).value.Failure? <==> Count(RemoveSpace(line), ',') + Count(RemoveSpace(line), '#') < 4
  {
    var clean := RemoveSpace(line);
    ReplaceAllCount(clean, '#', ',');
    SplitCount(ReplaceAll(clean, '#', ','), ',');
  }

  /** Whitespace anywhere in a line does not change what it gives. */
  lemma ParseLineIgnoresSpace(a: string, c: char, b: string, source: string)
    requires IsSpace(c)
    ensures ParseLine(a + [c] + b, source) == ParseLine(a + b, source)
  {
    RemoveSpaceConcat(a + [c], b);
    RemoveSpaceConcat(a, [c]);
    RemoveSpaceChar(c);
    RemoveSpaceConcat(a, b);
    assert RemoveSpace(a + [c]) == RemoveSpace(a);
    assert RemoveSpace(a + [c] + b) == RemoveSpace(a + b);
  }

  /** A joined list of strings without a character has none either, when
      the separator is not that character. */
  lemma {:induction false} JoinFree(xs: seq<string>, c: char)
    requires forall k :: 0 <= k < |xs| ==> Free(xs[k], c)
    requires c != ','
    ensures Free(Join(xs, ","), c)
  {
    if |xs| > 1 {
      JoinFree(xs[1..], c);
    }
  }

  lemma JoinCons(x: string, xs: seq<string>, sep: string)
    requires |xs| > 0
    ensures Join([x] + xs, sep) == x + sep + Join(xs, sep)
  {
    assert ([x] + xs)[1..] == xs;
  }

  /** The transform of one line, as a value. */
  function Parser(source: string): string -> Option<Result<BlacklistedEntry, Error>>
  {
    line => ParseLine(line, source)
  }

  /** Every error of a fetch is the missing-field error. */
  lemma ErrorsMissingField(lines: seq<string>, source: string)
    ensures forall k :: 0 <= k < |Errs(Parser(source), lines)| ==> Errs(Parser(source), lines)[k] == MissingField
  {
    ErrsFrom(Parser(source), lines, MissingField);
  }

  /** `myIPmsList`. */
  class MyIPmsList {
    var meta: Metadata

    /** `NewMyIPmsList()`. */
    constructor ()
      ensures meta == Metadata([IPType], "myip.ms", 0, 86400)
    {
      meta := Metadata([IPType], "myip.ms", 0, 86400);
    }

    function GetMetadata(): Metadata
      reads this
    {
      meta
    }

    /** `SetMetadata`: a later `GetMetadata` returns the value set. */
    method SetMetadata(m: Metadata)
      modifies this
      ensures GetMetadata() == m
    {
      meta := m;
    }

    /** `FetchData`, given the outcome of downloading and unzipping the
        file: the IP channel is closed on every path. */
    method FetchData(entryMap: EntryMap, errorsOut: Chan<Error>, fetched: Result<seq<string>, Error>)
      requires Ready(entryMap, [IPType]) && !errorsOut.closed
      modifies entryMap[IPType], errorsOut
      ensures entryMap[IPType].closed && !errorsOut.closed
      ensures fetched.Failure? ==> entryMap[IPType].items == old(entryMap[IPType].items)
                                   && errorsOut.items == old(errorsOut.items) + [fetched.error]
      ensures fetched.Success? ==> entryMap[IPType].items == old(entryMap[IPType].items) + Oks(Parser(meta.name), fetched.value)
                                   && errorsOut.items == old(errorsOut.items) + Errs(Parser(meta.name), fetched.value)
    {
      var ch := entryMap[IPType];
      if fetched.Failure? {
        errorsOut.Send(fetched.error);
        ch.Close();
        return;
      }
      EmitParsed(ch, errorsOut, fetched.value, Parser(meta.name));
      ch.Close();
    }
  }
}
