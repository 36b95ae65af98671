/** list/list.go (the older list API, where a list has a single
    BlacklistedType and `GetMetadata` returns `*Metadata`): the cache-time gate
    and the pipeline that fetches a list's entries and validates them. */
module ListPipeline {
  import opened Base
  import opened GoStrings
  import opened ListEntry
  import opened Streams
  import ListHostname
  import ListIP
  import ListURL

  /** The BlacklistedType interface, with the repository's three
      implementations; each variant holds the implementing object, so two
      values are equal exactly when they hold the same singleton. */
  datatype BlacklistedType =
    | HostnameKind(h: ListHostname.HostnameType)
    | IPKind(ip: ListIP.IPType)
    | URLKind(u: ListURL.URLType)
  {
    function Type(): string
    {
      match this
      case HostnameKind(h) => h.Type()
      case IPKind(ip) => ip.Type()
      case URLKind(u) => u.Type()
    }

    function ValidateIndex(data: string): Option<Error>
    {
      match this
      case HostnameKind(h) => h.ValidateIndex(data)
      case IPKind(ip) => ip.ValidateIndex(data)
      case URLKind(u) => u.ValidateIndex(data)
    }
  }

  /** Every implementation accepts every index. */
  lemma ValidateIndexAcceptsAll(t: BlacklistedType, data: string)
    ensures t.ValidateIndex(data) == None
    ensures t.Type() in {"hostname", "ip", "url"}
  {
  }

  /** `list.Metadata`: the name, the unix time of the last fetch and how many
      seconds a fetch stays fresh. */
  datatype Metadata = Metadata(name: string, lastUpdate: int64, cacheTime: int64)

  /** `ShouldFetch(m)` at unix time `now`: Go adds the two int64 fields with
      wrap-around before comparing. */
  predicate ShouldFetch(m: Metadata, now: int64)
  {
    now > Add64(m.lastUpdate, m.cacheTime)
  }

  /** Without overflow, a list is due exactly when its cache time has
      passed since its last update. */
  lemma ShouldFetchDue(m: Metadata, now: int64)
    requires InInt64(m.lastUpdate as int + m.cacheTime as int)
    ensures ShouldFetch(m, now) <==> now as int > m.lastUpdate as int + m.cacheTime as int
  {
  }

  /** A list with cache time 0 is due at any moment after its last update. */
  lemma ZeroCacheTimeAlwaysDue(m: Metadata, now: int64)
    requires m.cacheTime == 0 && m.lastUpdate < now
    ensures ShouldFetch(m, now)
  {
  }

  /** The sum can wrap: a list updated at the largest int64 time with cache
      time 1 counts as due at any time after the smallest one. */
  lemma ShouldFetchWraps(m: Metadata, now: int64)
    requires m.lastUpdate == 0x7FFF_FFFF_FFFF_FFFF && m.cacheTime == 1
    requires now > -0x8000_0000_0000_0000
    ensures ShouldFetch(m, now)
  {
    assert Add64(m.lastUpdate, m.cacheTime) == -0x8000_0000_0000_0000;
  }

  /** What an old-API list's factory builds: its type, its initial metadata,
      and what its `FetchData` produces (the entries it sends and the errors
      it reports), which the model takes as given. */
  datatype ListSpec = ListSpec(ltype: BlacklistedType, meta: Metadata,
                               feed: seq<BlacklistedEntry>, feedErrors: seq<Error>)

  /** A `list.List` object. Its metadata is held by reference (`*Metadata`), so an
      update to it stays with the object. */
  class List {
    const ltype: BlacklistedType
    var meta: Metadata
    const feed: seq<BlacklistedEntry>
    const feedErrors: seq<Error>

    constructor (spec: ListSpec)
      ensures ltype == spec.ltype && meta == spec.meta
      ensures feed == spec.feed && feedErrors == spec.feedErrors
    {
      ltype := spec.ltype;
      meta := spec.meta;
      feed := spec.feed;
      feedErrors := spec.feedErrors;
    }

    /** The list's current state as a value. */
    function Spec(): ListSpec
      reads this
    {
      ListSpec(ltype, meta, feed, feedErrors)
    }

    /** `FetchData(entriesOut, errorsOut)`: sends the entries, reports the
        errors, and closes `entriesOut` but not `errorsOut`. */
    method FetchData(entriesOut: Chan<BlacklistedEntry>, errorsOut: Chan<Option<Error>>)
      requires !entriesOut.closed && !errorsOut.closed
      modifies entriesOut, errorsOut
      ensures entriesOut.items == old(entriesOut.items) + feed && entriesOut.closed
      ensures errorsOut.items == old(errorsOut.items) + Reported(feedErrors) && !errorsOut.closed
    {
      assert entriesOut as object != errorsOut as object;
      for i := 0 to |feed|
        invariant entriesOut.items == old(entriesOut.items) + feed[..i] && !entriesOut.closed
        invariant errorsOut.items == old(errorsOut.items) && !errorsOut.closed
      {
        entriesOut.Send(feed[i]);
        assert feed[..i + 1] == feed[..i] + [feed[i]];
      }
      for i := 0 to |feedErrors|
        invariant entriesOut.items == old(entriesOut.items) + feed && !entriesOut.closed
        invariant errorsOut.items == old(errorsOut.items) + Reported(feedErrors[..i]) && !errorsOut.closed
      {
        errorsOut.Send(Some(feedErrors[i]));
        assert feedErrors[..i + 1] == feedErrors[..i] + [feedErrors[i]];
      }
      assert feed[..|feed|] == feed && feedErrors[..|feedErrors|] == feedErrors;
      entriesOut.Close();
    }
  }

  /** Errors as values on an error channel (where `nil` may also travel). */
  function Reported(errs: seq<Error>): (r: seq<Option<Error>>)
    ensures |r| == |errs| && forall i :: 0 <= i < |r| ==> r[i] == Some(errs[i])
  {
    if |errs| == 0 then [] else Reported(errs[..|errs| - 1]) + [Some(errs[|errs| - 1])]
  }

  /** The entries a validation loop forwards when it forwards exactly those
      whose `ValidateIndex` result is an error (`onError`) or exactly those
      whose result is nil (`!onError`), in input order. */
  function Selected(validate: string -> Option<Error>, es: seq<BlacklistedEntry>, onError: bool): seq<BlacklistedEntry>
  {
    if |es| == 0 then []
    else
      var e := es[|es| - 1];
      Selected(validate, es[..|es| - 1], onError) + (if validate(e.index).Some? == onError then [e] else [])
  }

  /** The values the same loop sends on the error stream: the validation
      result of every entry it does not forward, in input order. */
  function Diverted(validate: string -> Option<Error>, es: seq<BlacklistedEntry>, onError: bool): seq<Option<Error>>
  {
    if |es| == 0 then []
    else
      var e := es[|es| - 1];
      var err := validate(e.index);
      Diverted(validate, es[..|es| - 1], onError) + (if err.Some? == onError then [] else [err])
  }

  /** `validateHelper` as written: an entry is forwarded when `ValidateIndex`
      returns an error, and the (nil) result is sent as an error otherwise;
      `entriesOut` is closed once the input is exhausted. */
  method ValidateHelper(validate: string -> Option<Error>, entriesIn: seq<BlacklistedEntry>,
                        entriesOut: Chan<BlacklistedEntry>, errorsOut: Chan<Option<Error>>)
    requires !entriesOut.closed && !errorsOut.closed
    modifies entriesOut, errorsOut
    ensures entriesOut.items == old(entriesOut.items) + Selected(validate, entriesIn, true)
    ensures errorsOut.items == old(errorsOut.items) + Diverted(validate, entriesIn, true)
    ensures entriesOut.closed && !errorsOut.closed
  {
    for i := 0 to |entriesIn|
      invariant entriesOut.items == old(entriesOut.items) + Selected(validate, entriesIn[..i], true)
      invariant errorsOut.items == old(errorsOut.items) + Diverted(validate, entriesIn[..i], true)
      invariant !entriesOut.closed && !errorsOut.closed
    {
      assert entriesIn[..i + 1][..i] == entriesIn[..i];
      var entry := entriesIn[i];
      var err := validate(entry.index);
      if err != None {
        entriesOut.Send(entry);
      } else {
        errorsOut.Send(err);
      }
    }
    assert entriesIn[..|entriesIn|] == entriesIn;
    entriesOut.Close();
  }

  /** `validateHelper` as its doc comment describes it: only entries that
      pass validation are forwarded, and each failure is reported. */
  method ValidateHelperIntended(validate: string -> Option<Error>, entriesIn: seq<BlacklistedEntry>,
                                entriesOut: Chan<BlacklistedEntry>, errorsOut: Chan<Option<Error>>)
    requires !entriesOut.closed && !errorsOut.closed
    modifies entriesOut, errorsOut
    ensures entriesOut.items == old(entriesOut.items) + Selected(validate, entriesIn, false)
    ensures errorsOut.items == old(errorsOut.items) + Diverted(validate, entriesIn, false)
    ensures entriesOut.closed && !errorsOut.closed
  {
    for i := 0 to |entriesIn|
      invariant entriesOut.items == old(entriesOut.items) + Selected(validate, entriesIn[..i], false)
      invariant errorsOut.items == old(errorsOut.items) + Diverted(validate, entriesIn[..i], false)
      invariant !entriesOut.closed && !errorsOut.closed
    {
      assert entriesIn[..i + 1][..i] == entriesIn[..i];
      var entry := entriesIn[i];
      var err := validate(entry.index);
      if err == None {
        entriesOut.Send(entry);
      } else {
        errorsOut.Send(err);
      }
    }
    assert entriesIn[..|entriesIn|] == entriesIn;
    entriesOut.Close();
  }

  /** Each input entry goes to exactly one of the two streams. */
  lemma {:induction false} SelectedDivertedPartition(validate: string -> Option<Error>, es: seq<BlacklistedEntry>, onError: bool)
    ensures |Selected(validate, es, onError)| + |Diverted(validate, es, onError)| == |es|
  {
    if |es| > 0 {
      SelectedDivertedPartition(validate, es[..|es| - 1], onError);
    }
  }

  /** The forwarded entries are exactly the input entries of the selected
      kind, and they keep their input order: forwarding commutes with
      concatenation of inputs. */
  lemma {:induction false} SelectedMembers(validate: string -> Option<Error>, es: seq<BlacklistedEntry>, onError: bool, e: BlacklistedEntry)
    ensures e in Selected(validate, es, onError) <==> e in es && validate(e.index).Some? == onError
  {
    if |es| > 0 {
      SelectedMembers(validate, es[..|es| - 1], onError, e);
      assert es == es[..|es| - 1] + [es[|es| - 1]];
    }
  }

  lemma {:induction false} SelectedConcat(validate: string -> Option<Error>, a: seq<BlacklistedEntry>, b: seq<BlacklistedEntry>, onError: bool)
    ensures Selected(validate, a + b, onError) == Selected(validate, a, onError) + Selected(validate, b, onError)
    decreases |b|
  {
    if |b| == 0 {
      assert a + b == a;
    } else {
      assert (a + b)[..|a + b| - 1] == a + b[..|b| - 1];
      SelectedConcat(validate, a, b[..|b| - 1], onError);
    }
  }

  /** A validator that accepts every index, as all three BlacklistedTypes
      do (ValidateIndexAcceptsAll). */
  ghost predicate AcceptsAll(validate: string -> Option<Error>)
  {
    forall s :: validate(s) == None
  }

  lemma TypesAcceptAll(t: BlacklistedType)
    ensures AcceptsAll(t.ValidateIndex)
  {
    forall s ensures t.ValidateIndex(s) == None {
      ValidateIndexAcceptsAll(t, s);
    }
  }

  /** As written, the filter is inverted: with a validator that accepts
      everything, nothing at all is forwarded and one nil error is sent per
      entry, although the doc comment promises the validated entries. */
  lemma {:induction false} ValidateHelperForwardsNothing(validate: string -> Option<Error>, es: seq<BlacklistedEntry>)
    requires AcceptsAll(validate)
    ensures Selected(validate, es, true) == []
    ensures Diverted(validate, es, true) == seq(|es|, _ => None)
  {
    if |es| > 0 {
      ValidateHelperForwardsNothing(validate, es[..|es| - 1]);
      assert validate(es[|es| - 1].index) == None;
    }
  }

  /** The corrected filter forwards every accepted entry, unchanged and in
      order, and reports no error. */
  lemma {:induction false} ValidateHelperIntendedForwardsAll(validate: string -> Option<Error>, es: seq<BlacklistedEntry>)
    requires AcceptsAll(validate)
    ensures Selected(validate, es, false) == es
    ensures Diverted(validate, es, false) == []
  {
    if |es| > 0 {
      ValidateHelperIntendedForwardsAll(validate, es[..|es| - 1]);
      assert validate(es[|es| - 1].index) == None;
      assert es[..|es| - 1] + [es[|es| - 1]] == es;
    }
  }

  /** `FetchAndValidateEntries(l, errorsOut)`: the list's fetch feeds a fresh
      channel that `validateHelper` drains into the returned channel. The two
      goroutines are run one after the other. As written the returned
      channel ends up empty, with a nil error per fetched entry. */
  method FetchAndValidateEntries(l: List, errorsOut: Chan<Option<Error>>) returns (validated: Chan<BlacklistedEntry>)
    requires !errorsOut.closed
    modifies errorsOut
    ensures fresh(validated) && validated.closed && validated.items == []
    ensures errorsOut.items == old(errorsOut.items) + Reported(l.feedErrors) + seq(|l.feed|, _ => None)
    ensures !errorsOut.closed
  {
    var fetched := new Chan<BlacklistedEntry>();
    l.FetchData(fetched, errorsOut);
    validated := new Chan<BlacklistedEntry>();
    assert fetched.items == l.feed;
    ghost var afterFetch := errorsOut.items;
    ValidateHelper(l.ltype.ValidateIndex, fetched.items, validated, errorsOut);
    assert errorsOut.items == afterFetch + Diverted(l.ltype.ValidateIndex, l.feed, true);
    TypesAcceptAll(l.ltype);
    ValidateHelperForwardsNothing(l.ltype.ValidateIndex, l.feed);
  }

  /** `FetchAndValidateEntries` with the corrected filter: every fetched
      entry arrives, in order, and only the fetch's own errors are reported. */
  method FetchAndValidateEntriesIntended(l: List, errorsOut: Chan<Option<Error>>) returns (validated: Chan<BlacklistedEntry>)
    requires !errorsOut.closed
    modifies errorsOut
    ensures fresh(validated) && validated.closed && validated.items == l.feed
    ensures errorsOut.items == old(errorsOut.items) + Reported(l.feedErrors)
    ensures !errorsOut.closed
  {
    var fetched := new Chan<BlacklistedEntry>();
    l.FetchData(fetched, errorsOut);
    validated := new Chan<BlacklistedEntry>();
    assert fetched.items == l.feed;
    ghost var afterFetch := errorsOut.items;
    ValidateHelperIntended(l.ltype.ValidateIndex, fetched.items, validated, errorsOut);
    assert errorsOut.items == afterFetch + Diverted(l.ltype.ValidateIndex, l.feed, false);
    TypesAcceptAll(l.ltype);
    ValidateHelperIntendedForwardsAll(l.ltype.ValidateIndex, l.feed);
  }
}
