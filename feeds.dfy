/** The types of the newer list API (`list.Metadata` with its `Types`,
    `list.BlacklistedEntryMap`) and of the newer database package
    (`database.BlacklistResult`), shared by the feeds, the RPC and the two
    storage drivers. */
module Feeds {
  import opened Base
  import opened ListEntry
  import opened Streams

  /** `list.Metadata`: the entry types a list produces, its name, the unix
      time of its last fetch and how long a fetch stays fresh. */
  datatype Metadata = Metadata(types: seq<EntryType>, name: string, lastUpdate: int64, cacheTime: int64)

  /** `list.BlacklistedEntryMap`: one channel per entry type. */
  type EntryMap = map<EntryType, Chan<BlacklistedEntry>>

  /** `database.BlacklistResult`: an entry as stored and as returned by a
      lookup. */
  datatype BlacklistResult = BlacklistResult(index: string, list: string, extraData: map<string, Extra>)

  /** The record a driver stores for an entry: its index, the name of its
      list and its extra data. */
  function ToResult(e: BlacklistedEntry): BlacklistResult
  {
    BlacklistResult(e.index, e.source, e.extraData)
  }

  /** What a caller of `FetchData` provides: an open channel for each of the
      given types, and different channels for different types. */
  ghost predicate Ready(m: EntryMap, types: seq<EntryType>)
    reads m.Values
  {
    (forall t :: t in types ==> t in m && !m[t].closed)
    && (forall t, u :: t in types && u in types && t != u ==> m[t] != m[u])
  }

  /** What a per-line transform makes of a fetch: the values of the lines
      it turns into a value, in line order. */
  function Oks<T>(parse: string -> Option<Result<T, Error>>, lines: seq<string>): (r: seq<T>)
    ensures |r| <= |lines|
  {
    if |lines| == 0 then []
    else
      var p := parse(lines[|lines| - 1]);
      Oks(parse, lines[..|lines| - 1]) + (if p.Some? && p.value.Success? then [p.value.value] else [])
  }

  /** The errors of the lines a per-line transform rejects, in line order. */
  function Errs<T>(parse: string -> Option<Result<T, Error>>, lines: seq<string>): (r: seq<Error>)
    ensures |r| <= |lines|
  {
    if |lines| == 0 then []
    else
      var p := parse(lines[|lines| - 1]);
      Errs(parse, lines[..|lines| - 1]) + (if p.Some? && p.value.Failure? then [p.value.error] else [])
  }

  /** Every line yields at most one thing, a value or an error, and exactly
      one unless it is skipped. */
  lemma {:induction false} OnePerLine<T>(parse: string -> Option<Result<T, Error>>, lines: seq<string>)
    ensures |Oks(parse, lines)| + |Errs(parse, lines)| <= |lines|
    ensures (forall k :: 0 <= k < |lines| ==> parse(lines[k]).Some?) ==>
              |Oks(parse, lines)| + |Errs(parse, lines)| == |lines|
  {
    if |lines| > 0 {
      var init := lines[..|lines| - 1];
      OnePerLine(parse, init);
      assert forall k :: 0 <= k < |init| ==> init[k] == lines[k];
    }
  }

  /** Lines are processed in order: the values of two runs of lines are
      the values of the first run followed by those of the second. */
  lemma {:induction false} OksConcat<T>(parse: string -> Option<Result<T, Error>>, a: seq<string>, b: seq<string>)
    ensures Oks(parse, a + b) == Oks(parse, a) + Oks(parse, b)
    decreases |b|
  {
    if |b| == 0 {
      assert a + b == a;
    } else {
      assert (a + b)[..|a + b| - 1] == a + b[..|b| - 1];
      OksConcat(parse, a, b[..|b| - 1]);
    }
  }

  /** A value is emitted exactly when some line is transformed into it. */
  lemma {:induction false} OksMembers<T>(parse: string -> Option<Result<T, Error>>, lines: seq<string>, x: T)
    ensures x in Oks(parse, lines) <==> exists k :: 0 <= k < |lines| && parse(lines[k]) == Some(Success(x))
  {
    if |lines| > 0 {
      var init := lines[..|lines| - 1];
      OksMembers(parse, init, x);
      if x in Oks(parse, init) {
        var k :| 0 <= k < |init| && parse(init[k]) == Some(Success(x));
        assert lines[k] == init[k];
      }
      if exists k :: 0 <= k < |lines| && parse(lines[k]) == Some(Success(x)) {
        var k :| 0 <= k < |lines| && parse(lines[k]) == Some(Success(x));
        if k < |init| { assert init[k] == lines[k]; }
      }
    }
  }

  /** A transform whose only error is `err` reports nothing else. */
  lemma {:induction false} ErrsFrom<T>(parse: string -> Option<Result<T, Error>>, lines: seq<string>, err: Error)
    requires forall l :: parse(l).Some? && parse(l).value.Failure? ==> parse(l).value.error == err
    ensures forall k :: 0 <= k < |Errs(parse, lines)| ==> Errs(parse, lines)[k] == err
  {
    if |lines| > 0 {
      ErrsFrom(parse, lines[..|lines| - 1], err);
    }
  }

  /** The scanner loop of a feed whose lines are transformed one by one:
      each value is sent on the entry channel, each error on the error
      channel, and skipped lines send nothing. */
  method EmitParsed(ch: Chan<BlacklistedEntry>, errorsOut: Chan<Error>, lines: seq<string>,
                    parse: string -> Option<Result<BlacklistedEntry, Error>>)
    requires !ch.closed && !errorsOut.closed
    modifies ch, errorsOut
    ensures !ch.closed && !errorsOut.closed
    ensures ch.items == old(ch.items) + Oks(parse, lines)
    ensures errorsOut.items == old(errorsOut.items) + Errs(parse, lines)
  {
    for k := 0 to |lines|
      invariant !ch.closed && !errorsOut.closed
      invariant ch.items == old(ch.items) + Oks(parse, lines[..k])
      invariant errorsOut.items == old(errorsOut.items) + Errs(parse, lines[..k])
    {
      assert lines[..k + 1][..k] == lines[..k];
      var r := parse(lines[k]);
      if r.None? {
        continue;
      }
      if r.value.Failure? {
        errorsOut.Send(r.value.error);
        continue;
      }
      ch.Send(r.value.value);
    }
    assert lines[..|lines|] == lines;
  }
}
