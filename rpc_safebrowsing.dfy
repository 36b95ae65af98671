/** sources/rpc/safebrowsing.go: checks URLs against Google Safe Browsing
    and shapes the library's answer into blacklist results. The lookup
    itself is a parameter: for each URL it gives the names of the threat
    types found for it, in the library's order, or an error. */
module RPCSafeBrowsing {
  import opened Base
  import opened ListEntry
  import opened Feeds

  /** The list name every result carries. */
  const ListName: string := "google-safebrowsing"

  /** `GetType`: the RPC checks URLs. */
  function GetType(): (t: EntryType)
    ensures t == URLType && t != HostnameType && t != IPType
  {
    URLType
  }

  /** The result for a URL with at least one threat: the URL, the list name,
      and the JSON array of its threat types under "ThreatTypes". */
  function Hit(url: string, threatTypes: seq<string>, marshal: seq<string> -> string): BlacklistResult
  {
    BlacklistResult(url, ListName, map["ThreatTypes" := Str(marshal(threatTypes))])
  }

  /** The map `Check` builds from the answers for the first `|threats|` URLs:
      later URLs overwrite earlier equal ones. */
  function Shaped(urls: seq<string>, threats: seq<seq<string>>, marshal: seq<string> -> string): map<string, BlacklistResult>
    requires |threats| <= |urls|
    decreases |threats|
  {
    if |threats| == 0 then map[]
    else
      var i := |threats| - 1;
      var m := Shaped(urls, threats[..i], marshal);
      if |threats[i]| > 0 then m[urls[i] := Hit(urls[i], threats[i], marshal)] else m
  }

  /** A URL is a key exactly when one of its lookups found a threat. */
  lemma {:induction false} ShapedKeys(urls: seq<string>, threats: seq<seq<string>>, marshal: seq<string> -> string, u: string)
    requires |threats| <= |urls|
    ensures u in Shaped(urls, threats, marshal) <==> exists i :: 0 <= i < |threats| && urls[i] == u && |threats[i]| > 0
    decreases |threats|
  {
    if |threats| > 0 {
      var i := |threats| - 1;
      ShapedKeys(urls, threats[..i], marshal, u);
      assert forall j :: 0 <= j < i ==> threats[..i][j] == threats[j];
    }
  }

  /** The value for a URL comes from its last lookup that found a threat;
      for URLs that occur once, that is simply its lookup. */
  lemma {:induction false} ShapedValue(urls: seq<string>, threats: seq<seq<string>>, marshal: seq<string> -> string, i: nat)
    requires |threats| <= |urls| && i < |threats| && |threats[i]| > 0
    requires forall j :: i < j < |threats| && urls[j] == urls[i] ==> |threats[j]| == 0
    ensures urls[i] in Shaped(urls, threats, marshal)
    ensures Shaped(urls, threats, marshal)[urls[i]] == Hit(urls[i], threats[i], marshal)
    decreases |threats|
  {
    var n := |threats| - 1;
    if i < n {
      ShapedValue(urls, threats[..n], marshal, i);
    }
  }

  /** Every value is a hit of the list for the URL it is keyed by. */
  lemma {:induction false} ShapedResults(urls: seq<string>, threats: seq<seq<string>>, marshal: seq<string> -> string, u: string)
    requires |threats| <= |urls| && u in Shaped(urls, threats, marshal)
    ensures var r := Shaped(urls, threats, marshal)[u]; r.index == u && r.list == ListName && r.extraData.Keys == {"ThreatTypes"}
    decreases |threats|
  {
    var n := |threats| - 1;
    if !(|threats[n]| > 0 && urls[n] == u) {
      ShapedResults(urls, threats[..n], marshal, u);
    }
  }

  /** `Check`: a failed lookup gives its error and no map; otherwise the
      map of the URLs with threats to their results. The library answers
      with at most one list per URL, so `urls[urlIndex]` is in range. */
  method Check(urls: seq<string>, lookup: Result<seq<seq<string>>, Error>, marshal: seq<string> -> string)
    returns (r: Result<map<string, BlacklistResult>, Error>)
    requires lookup.Success? ==> |lookup.value| <= |urls|
    ensures lookup.Failure? ==> r == Failure(lookup.error)
    ensures lookup.Success? ==> r == Success(Shaped(urls, lookup.value, marshal))
  {
    if lookup.Failure? {
      return Failure(lookup.error);
    }
    var threats := lookup.value;
    var entries: map<string, BlacklistResult> := map[];
    for urlIndex := 0 to |threats|
      invariant entries == Shaped(urls, threats[..urlIndex], marshal)
    {
      var urlLookup := threats[urlIndex];
      assert threats[..urlIndex + 1][..urlIndex] == threats[..urlIndex];
      if |urlLookup| > 0 {
        var url := urls[urlIndex];
        entries := entries[url := BlacklistResult(url, ListName, map[])];
        var threatTypes: seq<string> := [];
        for k := 0 to |urlLookup|
          invariant threatTypes == urlLookup[..k]
        {
          threatTypes := threatTypes + [urlLookup[k]];
        }
        assert threatTypes == urlLookup;
        var threatTypesJSON := marshal(threatTypes);
        entries := entries[url := entries[url].(extraData := entries[url].extraData["ThreatTypes" := Str(threatTypesJSON)])];
      }
    }
    assert threats[..|threats|] == threats;
    return Success(entries);
  }
}
