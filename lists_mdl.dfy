/** sources/lists/mdl.go: the malwaredomainlist.com CSV feed, which yields
    URLs and the IP addresses behind them. Every field of a line is quoted,
    so a line is split on the three characters `","`. One set of indexes
    already emitted, shared by both types, keeps the fetch free of repeats.
    The download is represented by its outcome: the body's lines, or the
    error of `http.Get`. */
module ListsMdl {
  import opened Base
  import opened GoStrings
  import opened ListEntry
  import opened Streams
  import opened Feeds

  const MissingField: Error := Error("malformed line from MDL; missing field")

  const FieldSep: string := "\",\""

  /** What a fetch has produced so far: the IP and URL entries sent, the
      errors reported and the `alreadyBlacklisted` set. */
  datatype Scan = Scan(ips: seq<BlacklistedEntry>, urls: seq<BlacklistedEntry>, errors: seq<Error>, seen: set<string>)

  /** The URL of a line: the host field when the URL field is "-". */
  function URLOf(f: seq<string>): string
    requires |f| >= 9
  {
    if f[1] == "-" then "http://" + f[2] else "http://" + f[1]
  }

  /** The extra data of an entry: the date without the line's opening
      quote, the type, and the country without `countrySuffix`. The URL
      entry trims `"` and the IP entry trims `",`; when the country field
      does not end with that suffix it is kept whole. */
  function ExtraOf(f: seq<string>, countrySuffix: string): map<string, Extra>
    requires |f| >= 9
  {
    map["date" := Str(TrimPrefix(f[0], "\"")), "type" := Str(f[4]), "country" := Str(TrimSuffix(f[8], countrySuffix))]
  }

  /** One turn of the scanner loop. */
  function Line(st: Scan, line: string, source: string): Scan
  {
    if |line| == 0 then st
    else
      var f := Split(line, FieldSep);
      if |f| < 9 then st.(errors := st.errors + [MissingField])
      else
        var u := URLOf(f);
        if u in st.seen then st
        else
          var st' := if f[1] == "-" || f[2] in st.seen then st
                     else st.(ips := st.ips + [BlacklistedEntry(f[2], source, ExtraOf(f, "\","))], seen := st.seen + {f[2]});
          st'.(urls := st'.urls + [BlacklistedEntry(u, source, ExtraOf(f, "\""))], seen := st'.seen + {u})
  }

  /** The fetch over the first lines, from nothing sent and an empty set. */
  function Run(lines: seq<string>, source: string): Scan
  {
    if |lines| == 0 then Scan([], [], [], {})
    else Line(Run(lines[..|lines| - 1], source), lines[|lines| - 1], source)
  }

  /** A line's effect is an addition that depends on the set alone. */
  lemma LineDelta(st: Scan, line: string, source: string)
    ensures var d := Line(Scan([], [], [], st.seen), line, source);
            Line(st, line, source) == Scan(st.ips + d.ips, st.urls + d.urls, st.errors + d.errors, d.seen)
  {
  }

  predicate Distinct(es: seq<BlacklistedEntry>)
  {
    forall i, j :: 0 <= i < j < |es| ==> es[i].index != es[j].index
  }

  /** The invariant of the loop: every index sent is in the set, and no
      index has been sent twice on one channel. */
  predicate Consistent(st: Scan)
  {
    (forall k :: 0 <= k < |st.ips| ==> st.ips[k].index in st.seen)
    && (forall k :: 0 <= k < |st.urls| ==> st.urls[k].index in st.seen)
    && Distinct(st.ips) && Distinct(st.urls)
  }

  lemma LineConsistent(st: Scan, line: string, source: string)
    requires Consistent(st)
    ensures Consistent(Line(st, line, source))
  {
  }

  /** No IP and no URL is emitted twice in one fetch. */
  lemma {:induction false} RunConsistent(lines: seq<string>, source: string)
    ensures Consistent(Run(lines, source))
    ensures Distinct(Run(lines, source).ips) && Distinct(Run(lines, source).urls)
  {
    if |lines| > 0 {
      RunConsistent(lines[..|lines| - 1], source);
      LineConsistent(Run(lines[..|lines| - 1], source), lines[|lines| - 1], source);
    }
  }

  /** The lines that give an error: non-empty, with fewer than nine
      fields. */
  predicate Malformed(line: string)
  {
    |line| > 0 && |Split(line, FieldSep)| < 9
  }

  /** The lines that give entries: non-empty, with at least nine fields. */
  predicate WellFormed(line: string)
  {
    |line| > 0 && |Split(line, FieldSep)| >= 9
  }

  /** The error a line gives on its own. */
  function LineError(line: string): Option<Result<(), Error>>
  {
    if Malformed(line) then Some(Failure(MissingField)) else None
  }

  /** The errors do not depend on what was seen before: one per malformed
      line, in line order. */
  lemma {:induction false} RunErrors(lines: seq<string>, source: string)
    ensures Run(lines, source).errors == Errs(LineError, lines)
  {
    if |lines| > 0 {
      RunErrors(lines[..|lines| - 1], source);
    }
  }

  /** The URL of every well-formed line is sent on the URL channel, unless
      the same string was sent earlier as an IP address: the set of indexes
      already sent is shared by both types. */
  lemma {:induction false} RunURLsComplete(lines: seq<string>, source: string, k: nat)
    requires k < |lines| && WellFormed(lines[k])
    ensures var r, u := Run(lines, source), URLOf(Split(lines[k], FieldSep));
            (exists j :: 0 <= j < |r.urls| && r.urls[j].index == u) || (exists j :: 0 <= j < |r.ips| && r.ips[j].index == u)
  {
    RunURLSeen(lines, source, k);
    RunSeen(lines, source, URLOf(Split(lines[k], FieldSep)));
  }

  /** After a well-formed line its URL is in the set for good. */
  lemma {:induction false} RunURLSeen(lines: seq<string>, source: string, k: nat)
    requires k < |lines| && WellFormed(lines[k])
    ensures URLOf(Split(lines[k], FieldSep)) in Run(lines, source).seen
    decreases |lines|
  {
    var init := lines[..|lines| - 1];
    LineDelta(Run(init, source), lines[|lines| - 1], source);
    if k < |init| {
      assert init[k] == lines[k];
      RunURLSeen(init, source, k);
    }
  }

  /** An index in the set is the index of some entry sent. */
  lemma {:induction false} RunSeen(lines: seq<string>, source: string, x: string)
    requires x in Run(lines, source).seen
    ensures (exists j :: 0 <= j < |Run(lines, source).urls| && Run(lines, source).urls[j].index == x)
            || (exists j :: 0 <= j < |Run(lines, source).ips| && Run(lines, source).ips[j].index == x)
  {
    var init := lines[..|lines| - 1];
    var st := Run(init, source);
    LineDelta(st, lines[|lines| - 1], source);
    var st2 := Run(lines, source);
    if x in st.seen {
      RunSeen(init, source, x);
      if exists j :: 0 <= j < |st.urls| && st.urls[j].index == x {
        var j :| 0 <= j < |st.urls| && st.urls[j].index == x;
        assert st2.urls[j] == st.urls[j];
      } else {
        var j :| 0 <= j < |st.ips| && st.ips[j].index == x;
        assert st2.ips[j] == st.ips[j];
      }
    } else if |st2.ips| > |st.ips| && st2.ips[|st2.ips| - 1].index == x {
    } else {
      assert st2.urls[|st2.urls| - 1].index == x;
    }
  }

  /** Every URL entry comes from a well-formed line: its index is the
      line's URL and its extra data the line's date, type and country. */
  lemma {:induction false} RunURLsSound(lines: seq<string>, source: string, j: nat)
    requires j < |Run(lines, source).urls|
    ensures exists k :: 0 <= k < |lines| && WellFormed(lines[k]) &&
              Run(lines, source).urls[j] == BlacklistedEntry(URLOf(Split(lines[k], FieldSep)), source, ExtraOf(Split(lines[k], FieldSep), "\""))
  {
    var init := lines[..|lines| - 1];
    var st := Run(init, source);
    LineDelta(st, lines[|lines| - 1], source);
    if j < |st.urls| {
      RunURLsSound(init, source, j);
      var k :| 0 <= k < |init| && WellFormed(init[k]) &&
               st.urls[j] == BlacklistedEntry(URLOf(Split(init[k], FieldSep)), source, ExtraOf(Split(init[k], FieldSep), "\""));
      assert lines[k] == init[k];
    } else {
      var k := |lines| - 1;
      assert Run(lines, source).urls[j] == BlacklistedEntry(URLOf(Split(lines[k], FieldSep)), source, ExtraOf(Split(lines[k], FieldSep), "\""));
    }
  }

  /** A line whose URL field is "-" sends no IP; the IP of any other line
      is its host field. */
  lemma {:induction false} RunIPsSound(lines: seq<string>, source: string, j: nat)
    requires j < |Run(lines, source).ips|
    ensures exists k :: 0 <= k < |lines| && WellFormed(lines[k]) && Split(lines[k], FieldSep)[1] != "-" &&
              Run(lines, source).ips[j] == BlacklistedEntry(Split(lines[k], FieldSep)[2], source, ExtraOf(Split(lines[k], FieldSep), "\","))
  {
    var init := lines[..|lines| - 1];
    var st := Run(init, source);
    LineDelta(st, lines[|lines| - 1], source);
    if j < |st.ips| {
      RunIPsSound(init, source, j);
      var k :| 0 <= k < |init| && WellFormed(init[k]) && Split(init[k], FieldSep)[1] != "-" &&
               st.ips[j] == BlacklistedEntry(Split(init[k], FieldSep)[2], source, ExtraOf(Split(init[k], FieldSep), "\","));
      assert lines[k] == init[k];
    } else {
      LineNewIP(st, lines[|lines| - 1], source);
    }
  }

  /** The host field of a well-formed line is sent on the IP channel when
      its URL field is not "-" and neither its URL nor its host was sent
      before it, with the line's date, type and country. */
  lemma RunIPsComplete(lines: seq<string>, source: string, k: nat)
    requires k < |lines| && WellFormed(lines[k])
    requires var f, seen := Split(lines[k], FieldSep), Run(lines[..k], source).seen;
             f[1] != "-" && URLOf(f) !in seen && f[2] !in seen
    ensures var f := Split(lines[k], FieldSep);
            exists j :: 0 <= j < |Run(lines, source).ips| &&
              Run(lines, source).ips[j] == BlacklistedEntry(f[2], source, ExtraOf(f, "\","))
  {
    var f := Split(lines[k], FieldSep);
    var r := Run(lines[..k], source);
    RunStep(lines, k, source);
    RunIPsPrefix(lines, source, k + 1);
    assert Run(lines[..k + 1], source).ips[|r.ips|] == BlacklistedEntry(f[2], source, ExtraOf(f, "\","));
  }

  /** The IPs sent for a prefix of the lines stay at the head of those
      sent for all of them. */
  lemma {:induction false} RunIPsPrefix(lines: seq<string>, source: string, m: nat)
    requires m <= |lines|
    ensures Run(lines[..m], source).ips <= Run(lines, source).ips
    decreases |lines|
  {
    if m == |lines| {
      assert lines[..m] == lines;
    } else {
      var init := lines[..|lines| - 1];
      LineDelta(Run(init, source), lines[|lines| - 1], source);
      assert init[..m] == lines[..m];
      RunIPsPrefix(init, source, m);
    }
  }

  /** A line that sends an IP is well formed, its URL field is not "-",
      and the IP sent is its host field. */
  lemma LineNewIP(st: Scan, line: string, source: string)
    requires |Line(st, line, source).ips| > |st.ips|
    ensures WellFormed(line) && Split(line, FieldSep)[1] != "-"
    ensures Line(st, line, source).ips == st.ips + [BlacklistedEntry(Split(line, FieldSep)[2], source, ExtraOf(Split(line, FieldSep), "\","))]
  {
  }

  /** A line whose URL was already sent, or an empty line, changes
      nothing: neither its IP nor its URL is sent, and no error. */
  lemma SeenURLSkipsLine(st: Scan, line: string, source: string)
    requires |line| == 0 || (WellFormed(line) && URLOf(Split(line, FieldSep)) in st.seen)
    ensures Line(st, line, source) == st
  {
  }

  /** One turn of the loop, on the channels. */
  method ProcessLine(ipCh: Chan<BlacklistedEntry>, urlCh: Chan<BlacklistedEntry>, errorsOut: Chan<Error>,
                     line: string, source: string, alreadyBlacklisted: set<string>)
    returns (seen: set<string>)
    requires ipCh != urlCh && !ipCh.closed && !urlCh.closed && !errorsOut.closed
    modifies ipCh, urlCh, errorsOut
    ensures !ipCh.closed && !urlCh.closed && !errorsOut.closed
    ensures var d := Line(Scan([], [], [], alreadyBlacklisted), line, source);
            ipCh.items == old(ipCh.items) + d.ips && urlCh.items == old(urlCh.items) + d.urls
            && errorsOut.items == old(errorsOut.items) + d.errors && seen == d.seen
  {
    seen := alreadyBlacklisted;
    if |line| == 0 {
      return;
    }
    var f := Split(line, FieldSep);
    if |f| < 9 {
      errorsOut.Send(MissingField);
      return;
    }
    var url: string;
    if f[1] == "-" {
      if "http://" + f[2] in seen {
        return;
      }
      url := "http://" + f[2];
    } else {
      if "http://" + f[1] in seen {
        return;
      }
      url := "http://" + f[1];
      if f[2] !in seen {
        ipCh.Send(BlacklistedEntry(f[2], source, ExtraOf(f, "\",")));
        seen := seen + {f[2]};
      }
    }
    urlCh.Send(BlacklistedEntry(url, source, ExtraOf(f, "\"")));
    seen := seen + {url};
  }

  /** The loop invariant of `FetchData` after `k` lines. */
  ghost predicate Progress(ipCh: Chan<BlacklistedEntry>, urlCh: Chan<BlacklistedEntry>, errorsOut: Chan<Error>,
                           lines: seq<string>, k: nat, source: string, seen: set<string>,
                           ips0: seq<BlacklistedEntry>, urls0: seq<BlacklistedEntry>, errs0: seq<Error>)
    requires k <= |lines|
    reads ipCh, urlCh, errorsOut
  {
    var r := Run(lines[..k], source);
    ipCh != urlCh && !ipCh.closed && !urlCh.closed && !errorsOut.closed
    && ipCh.items == ips0 + r.ips && urlCh.items == urls0 + r.urls && errorsOut.items == errs0 + r.errors
    && seen == r.seen
  }

  /** One turn of the scanner loop, against the invariant. */
  method ScanStep(ipCh: Chan<BlacklistedEntry>, urlCh: Chan<BlacklistedEntry>, errorsOut: Chan<Error>,
                  lines: seq<string>, k: nat, source: string, seen: set<string>,
                  ghost ips0: seq<BlacklistedEntry>, ghost urls0: seq<BlacklistedEntry>, ghost errs0: seq<Error>)
    returns (seen': set<string>)
    requires k < |lines| && Progress(ipCh, urlCh, errorsOut, lines, k, source, seen, ips0, urls0, errs0)
    modifies ipCh, urlCh, errorsOut
    ensures Progress(ipCh, urlCh, errorsOut, lines, k + 1, source, seen', ips0, urls0, errs0)
  {
    RunStep(lines, k, source);
    seen' := ProcessLine(ipCh, urlCh, errorsOut, lines[k], source, seen);
  }

  /** The fetch over one more line adds that line's own effect. */
  lemma RunStep(lines: seq<string>, k: nat, source: string)
    requires k < |lines|
    ensures var r := Run(lines[..k], source);
            var d := Line(Scan([], [], [], r.seen), lines[k], source);
            Run(lines[..k + 1], source) == Scan(r.ips + d.ips, r.urls + d.urls, r.errors + d.errors, d.seen)
  {
    assert lines[..k + 1][..k] == lines[..k];
    LineDelta(Run(lines[..k], source), lines[k], source);
  }

  /** The scanner loop of `FetchData`. */
  method ScanLoop(ipCh: Chan<BlacklistedEntry>, urlCh: Chan<BlacklistedEntry>, errorsOut: Chan<Error>,
                  lines: seq<string>, source: string)
    requires ipCh != urlCh && !ipCh.closed && !urlCh.closed && !errorsOut.closed
    modifies ipCh, urlCh, errorsOut
    ensures !ipCh.closed && !urlCh.closed && !errorsOut.closed
    ensures var r := Run(lines, source);
            ipCh.items == old(ipCh.items) + r.ips && urlCh.items == old(urlCh.items) + r.urls
            && errorsOut.items == old(errorsOut.items) + r.errors
  {
    ghost var ips0, urls0, errs0 := ipCh.items, urlCh.items, errorsOut.items;
    var alreadyBlacklisted: set<string> := {};
    assert lines[..0] == [];
    for k := 0 to |lines|
      invariant Progress(ipCh, urlCh, errorsOut, lines, k, source, alreadyBlacklisted, ips0, urls0, errs0)
    {
      alreadyBlacklisted := ScanStep(ipCh, urlCh, errorsOut, lines, k, source, alreadyBlacklisted, ips0, urls0, errs0);
    }
    assert lines[..|lines|] == lines;
  }

  /** `mdlList`. */
  class MdlList {
    var meta: Metadata

    /** `NewMdlList()`. */
    constructor ()
      ensures meta == Metadata([IPType, URLType], "mdl", 0, 86400)
    {
      meta := Metadata([IPType, URLType], "mdl", 0, 86400);
    }

    function GetMetadata(): Metadata
      reads this
    {
      meta
    }

    /** `SetMetadata`: a later `GetMetadata` returns the value set. */
    method SetMetadata(m: Metadata)
      modifies this
      ensures GetMetadata() == m
    {
      meta := m;
    }

    /** `FetchData`, given the outcome of the download: both channels are
        closed on every path, and the lines are processed as `Run` says. */
    method FetchData(entryMap: EntryMap, errorsOut: Chan<Error>, fetched: Result<seq<string>, Error>)
      requires Ready(entryMap, [IPType, URLType]) && !errorsOut.closed
      modifies entryMap[IPType], entryMap[URLType], errorsOut
      ensures entryMap[IPType].closed && entryMap[URLType].closed && !errorsOut.closed
      ensures fetched.Failure? ==> entryMap[IPType].items == old(entryMap[IPType].items)
                                   && entryMap[URLType].items == old(entryMap[URLType].items)
                                   && errorsOut.items == old(errorsOut.items) + [fetched.error]
      ensures fetched.Success? ==>
                var r := Run(fetched.value, meta.name);
                entryMap[IPType].items == old(entryMap[IPType].items) + r.ips
                && entryMap[URLType].items == old(entryMap[URLType].items) + r.urls
                && errorsOut.items == old(errorsOut.items) + r.errors
    {
      var ipCh, urlCh := entryMap[IPType], entryMap[URLType];
      if fetched.Failure? {
        errorsOut.Send(fetched.error);
        urlCh.Close();
        ipCh.Close();
        return;
      }
      ScanLoop(ipCh, urlCh, errorsOut, fetched.value, meta.name);
      urlCh.Close();
      ipCh.Close();
    }
  }
}
