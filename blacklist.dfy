/** blacklist.go: the controller that reconciles the lists registered in the
    database with the list factories registered in the sources package, and
    answers membership queries from the cache plus the registered RPCs.

    Go runs each list's fetch in a goroutine and funnels every error through
    a channel to the error handler; here each fetch completes before the
    storage calls for its list, and the error channel's contents are what
    the handler receives. A nil dereference (Go panic) ends the run and is
    reported as `panicked`. */
module Blacklist {
  import opened Base
  import opened ListEntry
  import opened Streams
  import opened ListPipeline
  import opened Database
  import opened Sources

  // ---------------------------------------------------------------------
  // Specification functions: what the loops of blacklist.go compute.
  // ---------------------------------------------------------------------

  /** The lists that `getListsFromMetas` builds: one per registered meta
      whose name has a factory, in meta order. */
  function Registered(factories: map<string, ListSpec>, metas: seq<Metadata>): (r: seq<ListSpec>)
    ensures |r| <= |metas|
  {
    if |metas| == 0 then []
    else
      var m := metas[|metas| - 1];
      Registered(factories, metas[..|metas| - 1]) + (if m.name in factories then [factories[m.name]] else [])
  }

  /** The errors it reports: one per meta whose name has no factory. */
  function MissingErrors(factories: map<string, ListSpec>, metas: seq<Metadata>): (r: seq<Option<Error>>)
    ensures |r| + |Registered(factories, metas)| == |metas|
  {
    if |metas| == 0 then []
    else
      var m := metas[|metas| - 1];
      MissingErrors(factories, metas[..|metas| - 1])
        + (if m.name in factories then [] else [Some(Error("Could not find a List named " + m.name))])
  }

  /** How the inner loop of `getListsToAdd` ends for one available name:
      Some(true) when it meets a registered list of that name, Some(false)
      when there is none, None when it meets a nil list first and
      dereferences it. */
  function Lookup(name: string, regs: seq<Option<string>>): Option<bool>
  {
    if |regs| == 0 then Some(false)
    else if regs[0].None? then None
    else if regs[0].value == name then Some(true)
    else Lookup(name, regs[1..])
  }

  /** With no nil list, the lookup is plain membership. */
  lemma {:induction false} LookupMembership(name: string, regs: seq<Option<string>>)
    requires forall i :: 0 <= i < |regs| ==> regs[i].Some?
    ensures Lookup(name, regs) == Some(Some(name) in regs)
  {
    if |regs| > 0 {
      LookupMembership(name, regs[1..]);
      assert regs == [regs[0]] + regs[1..];
    }
  }

  /** The available names for which `getListsToAdd` finds no registered list,
      in available order. */
  function Missing(avail: seq<string>, regs: seq<Option<string>>): (r: seq<string>)
    ensures |r| <= |avail|
  {
    if |avail| == 0 then []
    else
      var a := avail[|avail| - 1];
      Missing(avail[..|avail| - 1], regs) + (if Lookup(a, regs) == Some(false) then [a] else [])
  }

  /** The names of the lists `getListsToAdd` returns are exactly the
      available names that no registered list carries. */
  lemma {:induction false} MissingMembers(avail: seq<string>, regs: seq<Option<string>>, n: string)
    requires forall i :: 0 <= i < |regs| ==> regs[i].Some?
    ensures n in Missing(avail, regs) <==> n in avail && Some(n) !in regs
  {
    if |avail| > 0 {
      MissingMembers(avail[..|avail| - 1], regs, n);
      LookupMembership(avail[|avail| - 1], regs);
      assert avail == avail[..|avail| - 1] + [avail[|avail| - 1]];
    }
  }

  /** `getListsToAdd` keeps the available order: filtering commutes with
      concatenation. */
  lemma {:induction false} MissingConcat(a: seq<string>, b: seq<string>, regs: seq<Option<string>>)
    ensures Missing(a + b, regs) == Missing(a, regs) + Missing(b, regs)
    decreases |b|
  {
    if |b| == 0 {
      assert a + b == a;
    } else {
      assert (a + b)[..|a + b| - 1] == a + b[..|b| - 1];
      MissingConcat(a, b[..|b| - 1], regs);
    }
  }

  /** What `CreateList` builds for each of some names that have factories
      (names without one are skipped). */
  function Factories(factories: map<string, ListSpec>, names: seq<string>): (r: seq<ListSpec>)
    ensures |r| <= |names|
    ensures (forall i :: 0 <= i < |names| ==> names[i] in factories) ==>
              |r| == |names| && forall i :: 0 <= i < |names| ==> r[i] == factories[names[i]]
  {
    if |names| == 0 then []
    else
      var n := names[|names| - 1];
      Factories(factories, names[..|names| - 1]) + (if n in factories then [factories[n]] else [])
  }

  /** The names under which a sequence of lists appears to the inner loop of
      `getListsToAdd`. */
  function SpecNames(specs: seq<ListSpec>): (r: seq<Option<string>>)
    ensures |r| == |specs| && forall i :: 0 <= i < |specs| ==> r[i] == Some(specs[i].meta.name)
  {
    if |specs| == 0 then [] else SpecNames(specs[..|specs| - 1]) + [Some(specs[|specs| - 1].meta.name)]
  }

  /** What the fetch pipeline delivers for a list: as written nothing (the
      inverted filter of list/list.go), as intended its whole feed. */
  function Inserted(s: ListSpec, intended: bool): seq<BlacklistedEntry>
  {
    if intended then s.feed else []
  }

  /** The errors the fetch pipeline reports for a list. */
  function FetchErrors(s: ListSpec, intended: bool): seq<Option<Error>>
  {
    Reported(s.feedErrors) + (if intended then [] else seq(|s.feed|, _ => None))
  }

  /** The storage calls `updateRegisteredLists` makes for one registered
      list: nothing while its cache time runs; otherwise RemoveList and,
      once that succeeds, the calls that create a new list (RegisterList
      with LastUpdate set to now, then InsertEntries), stopping after the
      first call that fails. */
  function RefreshCalls(s: ListSpec, now: int64, fault: Call -> Option<Error>, intended: bool): seq<Call>
  {
    if !ShouldFetch(s.meta, now) then []
    else if fault(RemoveCall(s.meta.name)).Some? then [RemoveCall(s.meta.name)]
    else [RemoveCall(s.meta.name)] + CreateCalls(s, now, fault, intended)
  }

  /** The errors the storage calls report while refreshing one registered
      list: the first failure, if any. */
  function RefreshStoreErrors(s: ListSpec, now: int64, fault: Call -> Option<Error>, intended: bool): seq<Option<Error>>
  {
    if fault(RemoveCall(s.meta.name)).Some? then [fault(RemoveCall(s.meta.name))]
    else CreateStoreErrors(s, now, fault, intended)
  }

  /** The errors reported while refreshing one registered list. */
  function RefreshErrors(s: ListSpec, now: int64, fault: Call -> Option<Error>, intended: bool): seq<Option<Error>>
  {
    if !ShouldFetch(s.meta, now) then [] else FetchErrors(s, intended) + RefreshStoreErrors(s, now, fault, intended)
  }

  /** A registered list's metadata afterwards: stamped with now once its
      removal succeeded. */
  function Refreshed(m: Metadata, now: int64, fault: Call -> Option<Error>): Metadata
  {
    if fault(RemoveCall(m.name)).None? then Created(m, now) else m
  }

  /** The storage calls `createNewLists` makes for one new list: nothing
      while its cache time runs; otherwise RegisterList with LastUpdate set to
      now and, if that succeeds, InsertEntries. */
  function CreateCalls(s: ListSpec, now: int64, fault: Call -> Option<Error>, intended: bool): seq<Call>
  {
    if !ShouldFetch(s.meta, now) then []
    else
      var m := s.meta.(lastUpdate := now);
      if fault(RegisterCall(m)).Some? then [RegisterCall(m)]
      else [RegisterCall(m), InsertCall(s.ltype, Inserted(s, intended))]
  }

  /** The errors the storage calls report while creating one new list. */
  function CreateStoreErrors(s: ListSpec, now: int64, fault: Call -> Option<Error>, intended: bool): seq<Option<Error>>
  {
    var m := s.meta.(lastUpdate := now);
    var insert := InsertCall(s.ltype, Inserted(s, intended));
    if fault(RegisterCall(m)).Some? then [fault(RegisterCall(m))]
    else if fault(insert).Some? then [fault(insert)]
    else []
  }

  /** The errors reported while creating one new list. */
  function CreateErrors(s: ListSpec, now: int64, fault: Call -> Option<Error>, intended: bool): seq<Option<Error>>
  {
    if !ShouldFetch(s.meta, now) then [] else FetchErrors(s, intended) + CreateStoreErrors(s, now, fault, intended)
  }

  /** A new list's metadata afterwards. */
  function Created(m: Metadata, now: int64): Metadata
  {
    if ShouldFetch(m, now) then m.(lastUpdate := now) else m
  }

  /** The calls of a whole refresh loop: each list's calls in turn (a
      failure for one list does not stop the loop). */
  function RefreshAll(specs: seq<ListSpec>, now: int64, fault: Call -> Option<Error>, intended: bool): seq<Call>
  {
    if |specs| == 0 then []
    else RefreshAll(specs[..|specs| - 1], now, fault, intended) + RefreshCalls(specs[|specs| - 1], now, fault, intended)
  }

  function RefreshAllErrors(specs: seq<ListSpec>, now: int64, fault: Call -> Option<Error>, intended: bool): seq<Option<Error>>
  {
    if |specs| == 0 then []
    else RefreshAllErrors(specs[..|specs| - 1], now, fault, intended) + RefreshErrors(specs[|specs| - 1], now, fault, intended)
  }

  function CreateAll(specs: seq<ListSpec>, now: int64, fault: Call -> Option<Error>, intended: bool): seq<Call>
  {
    if |specs| == 0 then []
    else CreateAll(specs[..|specs| - 1], now, fault, intended) + CreateCalls(specs[|specs| - 1], now, fault, intended)
  }

  function CreateAllErrors(specs: seq<ListSpec>, now: int64, fault: Call -> Option<Error>, intended: bool): seq<Option<Error>>
  {
    if |specs| == 0 then []
    else CreateAllErrors(specs[..|specs| - 1], now, fault, intended) + CreateErrors(specs[|specs| - 1], now, fault, intended)
  }

  // ---------------------------------------------------------------------
  // Properties of the specification.
  // ---------------------------------------------------------------------

  /** Each metadata is either turned into a list or reported, never both:
      the reported names are exactly those without a factory. */
  lemma {:induction false} RegisteredFromFactories(factories: map<string, ListSpec>, metas: seq<Metadata>, s: ListSpec)
    ensures s in Registered(factories, metas) <==> exists i :: 0 <= i < |metas| && metas[i].name in factories && factories[metas[i].name] == s
  {
    if |metas| > 0 {
      var init := metas[..|metas| - 1];
      RegisteredFromFactories(factories, init, s);
      if s in Registered(factories, metas) && s !in Registered(factories, init) {
        assert metas[|metas| - 1].name in factories && factories[metas[|metas| - 1].name] == s;
      }
      if exists i :: 0 <= i < |metas| && metas[i].name in factories && factories[metas[i].name] == s {
        var i :| 0 <= i < |metas| && metas[i].name in factories && factories[metas[i].name] == s;
        if i < |metas| - 1 {
          assert init[i] == metas[i];
        }
      }
    }
  }

  /** For one list, the calls follow the protocol Remove, Register, Insert
      and end exactly at the first failing call. */
  lemma RefreshProtocol(s: ListSpec, now: int64, fault: Call -> Option<Error>, intended: bool)
    requires ShouldFetch(s.meta, now)
    ensures var calls := RefreshCalls(s, now, fault, intended);
            var m := s.meta.(lastUpdate := now);
            && 1 <= |calls| <= 3
            && calls == [RemoveCall(s.meta.name), RegisterCall(m), InsertCall(s.ltype, Inserted(s, intended))][..|calls|]
            && (|calls| < 3 ==> fault(calls[|calls| - 1]).Some?)
            && (forall k :: 0 <= k < |calls| - 1 ==> fault(calls[k]).None?)
  {
    var calls := RefreshCalls(s, now, fault, intended);
    var m := s.meta.(lastUpdate := now);
    var full := [RemoveCall(s.meta.name), RegisterCall(m), InsertCall(s.ltype, Inserted(s, intended))];
    if fault(RemoveCall(s.meta.name)).Some? {
      assert calls == full[..1];
    } else if fault(RegisterCall(m)).Some? {
      assert calls == full[..2];
    } else {
      assert calls == full[..3];
    }
  }

  /** For one new list, the calls are Register and then Insert, and end
      exactly at the first failing call. */
  lemma CreateProtocol(s: ListSpec, now: int64, fault: Call -> Option<Error>, intended: bool)
    requires ShouldFetch(s.meta, now)
    ensures var calls := CreateCalls(s, now, fault, intended);
            var m := s.meta.(lastUpdate := now);
            && 1 <= |calls| <= 2
            && calls == [RegisterCall(m), InsertCall(s.ltype, Inserted(s, intended))][..|calls|]
            && (|calls| < 2 <==> fault(calls[0]).Some?)
  {
    var calls := CreateCalls(s, now, fault, intended);
    var m := s.meta.(lastUpdate := now);
    var full := [RegisterCall(m), InsertCall(s.ltype, Inserted(s, intended))];
    if fault(RegisterCall(m)).Some? {
      assert calls == full[..1];
    } else {
      assert calls == full[..2];
    }
  }

  /** Lists whose cache time has not run out see no storage call and
      report nothing. */
  lemma {:induction false} FreshListsUntouched(specs: seq<ListSpec>, now: int64, fault: Call -> Option<Error>, intended: bool)
    requires forall i :: 0 <= i < |specs| ==> !ShouldFetch(specs[i].meta, now)
    ensures RefreshAll(specs, now, fault, intended) == [] && CreateAll(specs, now, fault, intended) == []
    ensures RefreshAllErrors(specs, now, fault, intended) == [] && CreateAllErrors(specs, now, fault, intended) == []
  {
    if |specs| > 0 {
      FreshListsUntouched(specs[..|specs| - 1], now, fault, intended);
    }
  }

  /** Every registration made by the reconciler carries LastUpdate = now. */
  lemma {:induction false} RegistrationsStampedNow(regs: seq<ListSpec>, adds: seq<ListSpec>, now: int64,
                                                   fault: Call -> Option<Error>, intended: bool)
    ensures forall c :: c in RefreshAll(regs, now, fault, intended) + CreateAll(adds, now, fault, intended) && c.RegisterCall?
                        ==> c.meta.lastUpdate == now
    decreases |regs| + |adds|
  {
    if |regs| > 0 {
      RegistrationsStampedNow(regs[..|regs| - 1], adds, now, fault, intended);
    } else if |adds| > 0 {
      RegistrationsStampedNow(regs, adds[..|adds| - 1], now, fault, intended);
    }
  }

  /** Every registered list named in a refresh is removed before it is
      registered again: a list's RegisterCall is always directly preceded
      by its RemoveCall in the refresh loop's calls. */
  lemma {:induction false} RefreshRemovesBeforeRegistering(specs: seq<ListSpec>, now: int64, fault: Call -> Option<Error>, intended: bool, k: nat)
    requires k < |RefreshAll(specs, now, fault, intended)|
    requires RefreshAll(specs, now, fault, intended)[k].RegisterCall?
    ensures k > 0 && RefreshAll(specs, now, fault, intended)[k - 1] == RemoveCall(RefreshAll(specs, now, fault, intended)[k].meta.name)
  {
    var all := RefreshAll(specs, now, fault, intended);
    var init := RefreshAll(specs[..|specs| - 1], now, fault, intended);
    if k < |init| {
      RefreshRemovesBeforeRegistering(specs[..|specs| - 1], now, fault, intended, k);
    }
  }

  // ---------------------------------------------------------------------
  // The controller.
  // ---------------------------------------------------------------------

  /** Number of leading non-nil lists. */
  function NonNil(ls: seq<List?>): (p: nat)
    ensures p <= |ls| && (forall k :: 0 <= k < p ==> ls[k] != null) && (p < |ls| ==> ls[p] == null)
  {
    if |ls| == 0 then 0 else if ls[0] == null then 0 else 1 + NonNil(ls[1..])
  }

  /** The lists' current states. */
  function Specs(ls: seq<List?>): (r: seq<ListSpec>)
    requires forall k :: 0 <= k < |ls| ==> ls[k] != null
    reads set l: List | l in ls
    ensures |r| == |ls| && forall k :: 0 <= k < |ls| ==> r[k] == ls[k].Spec()
  {
    if |ls| == 0 then [] else Specs(ls[..|ls| - 1]) + [ls[|ls| - 1].Spec()]
  }

  /** The names the lists carry, None for nil. */
  function Names(ls: seq<List?>): (r: seq<Option<string>>)
    reads set l: List | l in ls
    ensures |r| == |ls|
    ensures forall k :: 0 <= k < |ls| ==> r[k] == if ls[k] == null then None else Some(ls[k].meta.name)
  {
    if |ls| == 0 then []
    else Names(ls[..|ls| - 1]) + [if ls[|ls| - 1] == null then None else Some(ls[|ls| - 1].meta.name)]
  }

  /** Distinct objects, so that updating one list's metadata leaves the
      others alone. */
  ghost predicate Distinct(ls: seq<List?>)
  {
    forall j, k :: 0 <= j < k < |ls| && ls[j] != null && ls[k] != null ==> ls[j] != ls[k]
  }

  /** The fetch pipeline, as written or with the corrected filter. */
  method Fetch(l: List, errorsOut: Chan<Option<Error>>, intended: bool) returns (validated: Chan<BlacklistedEntry>)
    requires !errorsOut.closed
    modifies errorsOut
    ensures fresh(validated) && validated.items == Inserted(l.Spec(), intended)
    ensures errorsOut.items == old(errorsOut.items) + FetchErrors(l.Spec(), intended) && !errorsOut.closed
  {
    if intended {
      validated := FetchAndValidateEntriesIntended(l, errorsOut);
    } else {
      validated := FetchAndValidateEntries(l, errorsOut);
    }
  }

  /** The body of `getListsFromMetas` after its `make`: appends a fresh list
      for each meta that has a factory and reports the others. */
  method CollectLists(reg: Registry, metas: seq<Metadata>, prefix: seq<List?>, errorsOut: Chan<Option<Error>>)
    returns (lists: seq<List?>)
    requires !errorsOut.closed
    modifies errorsOut
    ensures !errorsOut.closed
    ensures errorsOut.items == old(errorsOut.items) + MissingErrors(reg.listFactories, metas)
    ensures |lists| == |prefix| + |Registered(reg.listFactories, metas)| && lists[..|prefix|] == prefix
    ensures forall k :: |prefix| <= k < |lists| ==> lists[k] != null && fresh(lists[k])
    ensures Specs(lists[|prefix|..]) == Registered(reg.listFactories, metas)
    ensures Distinct(prefix) ==> Distinct(lists)
  {
    var added := CreateLists(reg, metas, errorsOut);
    lists := prefix + added;
    assert lists[|prefix|..] == added;
    assert lists[..|prefix|] == prefix;
    forall k | |prefix| <= k < |lists|
      ensures lists[k] != null && fresh(lists[k])
    {
      assert lists[k] == added[k - |prefix|] && added[k - |prefix|] in added;
    }
  }

  /** The loop of `getListsFromMetas`: a fresh list for each meta that has
      a factory, an error for each other one. */
  method CreateLists(reg: Registry, metas: seq<Metadata>, errorsOut: Chan<Option<Error>>)
    returns (added: seq<List>)
    requires !errorsOut.closed
    modifies errorsOut
    ensures !errorsOut.closed
    ensures errorsOut.items == old(errorsOut.items) + MissingErrors(reg.listFactories, metas)
    ensures forall l: List :: l in added ==> fresh(l)
    ensures Specs(added) == Registered(reg.listFactories, metas)
    ensures Distinct(added)
  {
    added := [];
    for i := 0 to |metas|
      invariant !errorsOut.closed
      invariant forall l: List :: l in added ==> fresh(l)
      invariant Collected(reg.listFactories, metas, i, added, errorsOut.items, old(errorsOut.items))
    {
      added := CreateListsStep(reg, metas, i, added, errorsOut, old(errorsOut.items));
    }
    assert metas[..|metas|] == metas;
  }

  /** The invariant of `getListsFromMetas`' loop after `i` metas: an error
      sent for each missing name and a distinct list built for each other. */
  ghost predicate Collected(factories: map<string, ListSpec>, metas: seq<Metadata>, i: nat, added: seq<List>,
                            items: seq<Option<Error>>, errs0: seq<Option<Error>>)
    requires i <= |metas|
    reads set l: List | l in added
  {
    && items == errs0 + MissingErrors(factories, metas[..i])
    && Specs(added) == Registered(factories, metas[..i])
    && Distinct(added)
  }

  /** One turn of `getListsFromMetas`' loop. */
  method CreateListsStep(reg: Registry, metas: seq<Metadata>, i: nat, added: seq<List>,
                         errorsOut: Chan<Option<Error>>, ghost errs0: seq<Option<Error>>)
    returns (added': seq<List>)
    requires i < |metas| && !errorsOut.closed
    requires Collected(reg.listFactories, metas, i, added, errorsOut.items, errs0)
    modifies errorsOut
    ensures !errorsOut.closed
    ensures forall l: List :: l in added' ==> l in added || fresh(l)
    ensures Collected(reg.listFactories, metas, i + 1, added', errorsOut.items, errs0)
  {
    var l := reg.CreateList(metas[i].name);
    if l != null {
      assert l !in added;
      added' := added + [l];
      CollectedFound(reg.listFactories, metas, i, added, l, errorsOut.items, errs0);
    } else {
      added' := added;
      ghost var items := errorsOut.items;
      errorsOut.Send(Some(Error("Could not find a List named " + metas[i].name)));
      CollectedMissing(reg.listFactories, metas, i, added, items, errs0);
    }
  }

  /** A list built for the next meta keeps the loop invariant. */
  lemma CollectedFound(factories: map<string, ListSpec>, metas: seq<Metadata>, i: nat, added: seq<List>, l: List,
                       items: seq<Option<Error>>, errs0: seq<Option<Error>>)
    requires i < |metas| && metas[i].name in factories && l.Spec() == factories[metas[i].name] && l !in added
    requires Collected(factories, metas, i, added, items, errs0)
    ensures Collected(factories, metas, i + 1, added + [l], items, errs0)
  {
    RegisteredStep(factories, metas, i);
    SpecsSnoc(added, l);
    DistinctSnoc(added, l);
  }

  /** An error sent for a next meta without a factory keeps it too. */
  lemma CollectedMissing(factories: map<string, ListSpec>, metas: seq<Metadata>, i: nat, added: seq<List>,
                         items: seq<Option<Error>>, errs0: seq<Option<Error>>)
    requires i < |metas| && metas[i].name !in factories
    requires Collected(factories, metas, i, added, items, errs0)
    ensures Collected(factories, metas, i + 1, added,
                      items + [Some(Error("Could not find a List named " + metas[i].name))], errs0)
  {
    RegisteredStep(factories, metas, i);
    AppendAssoc(errs0, MissingErrors(factories, metas[..i]), [Some(Error("Could not find a List named " + metas[i].name))]);
  }

  lemma RegisteredStep(factories: map<string, ListSpec>, metas: seq<Metadata>, i: nat)
    requires i < |metas|
    ensures Registered(factories, metas[..i + 1])
      == Registered(factories, metas[..i]) + (if metas[i].name in factories then [factories[metas[i].name]] else [])
    ensures MissingErrors(factories, metas[..i + 1])
      == MissingErrors(factories, metas[..i])
         + (if metas[i].name in factories then [] else [Some(Error("Could not find a List named " + metas[i].name))])
  {
    assert metas[..i + 1][..i] == metas[..i];
  }

  lemma DistinctSnoc(ls: seq<List?>, l: List)
    requires Distinct(ls) && l !in ls
    ensures Distinct(ls + [l])
  {
  }

  lemma SpecsSnoc(ls: seq<List?>, l: List)
    requires forall k :: 0 <= k < |ls| ==> ls[k] != null
    ensures Specs(ls + [l]) == Specs(ls) + [l.Spec()]
  {
    assert (ls + [l])[..|ls|] == ls;
  }

  /** `getListsFromMetas` as written: `make([]list.List, len(metas))` puts
      one nil list per meta in front of the lists it appends. */
  method GetListsFromMetas(reg: Registry, metas: seq<Metadata>, errorsOut: Chan<Option<Error>>) returns (lists: seq<List?>)
    requires !errorsOut.closed
    modifies errorsOut
    ensures !errorsOut.closed
    ensures errorsOut.items == old(errorsOut.items) + MissingErrors(reg.listFactories, metas)
    ensures |lists| == |metas| + |Registered(reg.listFactories, metas)|
    ensures forall k :: 0 <= k < |metas| ==> lists[k] == null
    ensures forall k :: |metas| <= k < |lists| ==> lists[k] != null && fresh(lists[k])
    ensures Specs(lists[|metas|..]) == Registered(reg.listFactories, metas)
    ensures Distinct(lists)
  {
    lists := CollectLists(reg, metas, seq(|metas|, _ => null), errorsOut);
  }

  /** `getListsFromMetas` as intended: just the lists that have factories. */
  method GetListsFromMetasIntended(reg: Registry, metas: seq<Metadata>, errorsOut: Chan<Option<Error>>) returns (lists: seq<List?>)
    requires !errorsOut.closed
    modifies errorsOut
    ensures !errorsOut.closed
    ensures errorsOut.items == old(errorsOut.items) + MissingErrors(reg.listFactories, metas)
    ensures forall k :: 0 <= k < |lists| ==> lists[k] != null && fresh(lists[k])
    ensures Specs(lists) == Registered(reg.listFactories, metas) && Distinct(lists)
  {
    lists := CollectLists(reg, metas, [], errorsOut);
    assert lists[0..] == lists;
  }

  /** The loop of `getListsToAdd` over a given list of available names. */
  method ListsToAdd(reg: Registry, avail: seq<string>, registered: seq<List?>) returns (toAdd: seq<List?>, panicked: bool)
    ensures panicked <==> exists i :: 0 <= i < |avail| && Lookup(avail[i], Names(registered)).None?
    ensures !panicked ==> |toAdd| == |Missing(avail, Names(registered))|
    ensures !panicked ==> forall k :: 0 <= k < |toAdd| ==>
              var name := Missing(avail, Names(registered))[k];
              if name in reg.listFactories then toAdd[k] != null && fresh(toAdd[k]) && toAdd[k].Spec() == reg.listFactories[name]
              else toAdd[k] == null
    ensures !panicked ==> Distinct(toAdd)
  {
    var names := Names(registered);
    toAdd := [];
    panicked := false;
    for i := 0 to |avail|
      invariant forall j :: 0 <= j < i ==> Lookup(avail[j], names).Some?
      invariant forall l: List :: l in toAdd ==> fresh(l)
      invariant Built(reg.listFactories, Missing(avail[..i], names), toAdd) && Distinct(toAdd)
    {
      toAdd, panicked := ListsToAddStep(reg, avail, i, registered, names, toAdd);
      if panicked {
        return;
      }
    }
    assert avail[..|avail|] == avail;
    forall k | 0 <= k < |toAdd| && toAdd[k] != null
      ensures fresh(toAdd[k])
    {
      assert toAdd[k] in toAdd;
    }
  }

  /** The lists `getListsToAdd` has built for some names: a list from the
      factory where there is one, nil where there is none. */
  ghost predicate Built(factories: map<string, ListSpec>, names: seq<string>, toAdd: seq<List?>)
    reads set l: List | l in toAdd
  {
    && |toAdd| == |names|
    && forall k :: 0 <= k < |toAdd| ==>
         if names[k] in factories then toAdd[k] != null && toAdd[k].Spec() == factories[names[k]]
         else toAdd[k] == null
  }

  /** One turn of `getListsToAdd`' outer loop. */
  method ListsToAddStep(reg: Registry, avail: seq<string>, i: nat, registered: seq<List?>,
                        names: seq<Option<string>>, toAdd: seq<List?>)
    returns (toAdd': seq<List?>, panicked: bool)
    requires i < |avail| && names == Names(registered)
    requires Built(reg.listFactories, Missing(avail[..i], names), toAdd) && Distinct(toAdd)
    ensures panicked <==> Lookup(avail[i], names).None?
    ensures forall l: List :: l in toAdd' ==> l in toAdd || fresh(l)
    ensures !panicked ==> Built(reg.listFactories, Missing(avail[..i + 1], names), toAdd') && Distinct(toAdd')
  {
    var found;
    found, panicked := FindRegistered(registered, avail[i]);
    toAdd' := toAdd;
    if panicked {
      return;
    }
    if found {
      BuiltFound(reg.listFactories, avail, i, names, toAdd);
    } else {
      assert Lookup(avail[i], names).value == false;
      var l := reg.CreateList(avail[i]);
      assert l != null ==> l !in toAdd;
      BuiltAdded(reg.listFactories, avail, i, names, toAdd, l);
      toAdd' := toAdd + [l];
    }
  }

  /** The inner loop of `getListsToAdd`: whether a registered list carries
      `name`, or a panic on the first nil list met before one does. */
  method FindRegistered(registered: seq<List?>, name: string) returns (found: bool, panicked: bool)
    ensures panicked <==> Lookup(name, Names(registered)).None?
    ensures !panicked ==> (found <==> Lookup(name, Names(registered)) == Some(true))
  {
    ghost var names := Names(registered);
    found, panicked := false, false;
    var j := 0;
    while j < |registered|
      invariant 0 <= j <= |registered|
      invariant Lookup(name, names) == Lookup(name, names[j..])
      decreases |registered| - j
    {
      assert names[j..] == [names[j]] + names[j + 1..];
      if registered[j] == null {
        panicked := true;
        return;
      }
      if name == registered[j].meta.name {
        found := true;
        return;
      }
      j := j + 1;
    }
  }

  /** A name some registered list carries adds nothing to the built lists. */
  lemma BuiltFound(factories: map<string, ListSpec>, avail: seq<string>, i: nat, names: seq<Option<string>>,
                   toAdd: seq<List?>)
    requires i < |avail| && Lookup(avail[i], names) == Some(true)
    requires Built(factories, Missing(avail[..i], names), toAdd)
    ensures Built(factories, Missing(avail[..i + 1], names), toAdd)
  {
    assert avail[..i + 1][..i] == avail[..i];
  }

  /** A name no registered list carries adds the list its factory makes. */
  lemma BuiltAdded(factories: map<string, ListSpec>, avail: seq<string>, i: nat, names: seq<Option<string>>,
                   toAdd: seq<List?>, l: List?)
    requires i < |avail| && Lookup(avail[i], names) == Some(false)
    requires Built(factories, Missing(avail[..i], names), toAdd) && Distinct(toAdd)
    requires l != null ==> l !in toAdd
    requires if avail[i] in factories then l != null && l.Spec() == factories[avail[i]] else l == null
    ensures Built(factories, Missing(avail[..i + 1], names), toAdd + [l]) && Distinct(toAdd + [l])
  {
    assert avail[..i + 1][..i] == avail[..i];
  }

  /** `getListsToAdd`, reading the available names from the as-written
      `GetAvailableLists` (which starts with one "" per factory). */
  method GetListsToAdd(reg: Registry, registered: seq<List?>) returns (toAdd: seq<List?>, panicked: bool, avail: seq<string>)
    ensures |avail| == 2 * |reg.listFactories| && (forall i :: 0 <= i < |reg.listFactories| ==> avail[i] == "")
    ensures multiset(avail[|reg.listFactories|..]) == multiset(reg.listFactories.Keys)
    ensures panicked <==> exists i :: 0 <= i < |avail| && Lookup(avail[i], Names(registered)).None?
    ensures !panicked ==> |toAdd| == |Missing(avail, Names(registered))|
    ensures !panicked ==> forall k :: 0 <= k < |toAdd| ==>
              var name := Missing(avail, Names(registered))[k];
              if name in reg.listFactories then toAdd[k] != null && fresh(toAdd[k]) && toAdd[k].Spec() == reg.listFactories[name]
              else toAdd[k] == null
    ensures !panicked ==> Distinct(toAdd)
  {
    avail := reg.GetAvailableLists();
    toAdd, panicked := ListsToAdd(reg, avail, registered);
  }

  /** `getListsToAdd` over the corrected `GetAvailableLists`. */
  method GetListsToAddIntended(reg: Registry, registered: seq<List?>) returns (toAdd: seq<List?>, panicked: bool, avail: seq<string>)
    ensures multiset(avail) == multiset(reg.listFactories.Keys)
    ensures panicked <==> exists i :: 0 <= i < |avail| && Lookup(avail[i], Names(registered)).None?
    ensures !panicked ==> |toAdd| == |Missing(avail, Names(registered))|
    ensures !panicked ==> forall k :: 0 <= k < |toAdd| ==>
              var name := Missing(avail, Names(registered))[k];
              if name in reg.listFactories then toAdd[k] != null && fresh(toAdd[k]) && toAdd[k].Spec() == reg.listFactories[name]
              else toAdd[k] == null
    ensures !panicked ==> Distinct(toAdd)
  {
    avail := reg.GetAvailableListsIntended();
    toAdd, panicked := ListsToAdd(reg, avail, registered);
  }

  /** The invariant of `updateRegisteredLists`' loop after `i` of the first
      `p` lists: the calls and errors of refreshing those `i`, the refreshed
      metadata on them, and the other lists as they were. */
  ghost predicate Refreshing(db: Store, registered: seq<List?>, specs: seq<ListSpec>, i: nat, p: nat,
                             items: seq<Option<Error>>, now: int64, intended: bool,
                             log0: seq<Call>, errs0: seq<Option<Error>>)
    reads db, set l: List | l in registered
  {
    && i <= p == |specs| <= |registered| && (forall k :: 0 <= k < p ==> registered[k] != null)
    && db.log == log0 + RefreshAll(specs[..i], now, db.fault, intended)
    && items == errs0 + RefreshAllErrors(specs[..i], now, db.fault, intended)
    && (forall k :: 0 <= k < i ==> registered[k].meta == Refreshed(specs[k].meta, now, db.fault))
    && (forall k :: i <= k < p ==> registered[k].Spec() == specs[k])
  }

  /** The same for `createNewLists`' loop. */
  ghost predicate Creating(db: Store, toAdd: seq<List?>, specs: seq<ListSpec>, i: nat, p: nat,
                           items: seq<Option<Error>>, now: int64, intended: bool,
                           log0: seq<Call>, errs0: seq<Option<Error>>)
    reads db, set l: List | l in toAdd
  {
    && i <= p == |specs| <= |toAdd| && (forall k :: 0 <= k < p ==> toAdd[k] != null)
    && db.log == log0 + CreateAll(specs[..i], now, db.fault, intended)
    && items == errs0 + CreateAllErrors(specs[..i], now, db.fault, intended)
    && (forall k :: 0 <= k < i ==> toAdd[k].meta == Created(specs[k].meta, now))
    && (forall k :: i <= k < p ==> toAdd[k].Spec() == specs[k])
  }

  /** One turn of `updateRegisteredLists`' loop, for a non-nil list. */
  method RefreshOne(db: Store, l: List, errorsOut: Chan<Option<Error>>, now: int64, intended: bool)
    requires db.Valid() && !errorsOut.closed
    modifies db`log, db`registry, db`rows, errorsOut, l`meta
    ensures db.Valid() && !errorsOut.closed
    ensures db.log == old(db.log) + RefreshCalls(old(l.Spec()), now, db.fault, intended)
    ensures errorsOut.items == old(errorsOut.items) + RefreshErrors(old(l.Spec()), now, db.fault, intended)
    ensures l.meta == Refreshed(old(l.meta), now, db.fault)
  {
    if ShouldFetch(l.meta, now) {
      ghost var s, errs0 := l.Spec(), errorsOut.items;
      var entries := Fetch(l, errorsOut, intended);
      StoreRefreshed(db, l, entries.items, errorsOut, now, intended);
      AppendAssoc(errs0, FetchErrors(s, intended), RefreshStoreErrors(s, now, db.fault, intended));
    }
  }

  /** The storage part of creating one due list: RegisterList with
      LastUpdate set to now and, if that succeeds, InsertEntries. */
  method StoreCreated(db: Store, l: List, entries: seq<BlacklistedEntry>, errorsOut: Chan<Option<Error>>,
                      now: int64, ghost intended: bool)
    requires db.Valid() && !errorsOut.closed
    requires ShouldFetch(l.meta, now) && entries == Inserted(l.Spec(), intended)
    modifies db`log, db`registry, db`rows, errorsOut, l`meta
    ensures db.Valid() && !errorsOut.closed
    ensures db.log == old(db.log) + CreateCalls(old(l.Spec()), now, db.fault, intended)
    ensures errorsOut.items == old(errorsOut.items) + CreateStoreErrors(old(l.Spec()), now, db.fault, intended)
    ensures l.meta == Created(old(l.meta), now)
  {
    ghost var s := l.Spec();
    ghost var log0 := db.log;
    var m := l.meta.(lastUpdate := now);
    l.meta := m;
    var err := db.RegisterList(l);
    assert db.log == log0 + [RegisterCall(m)];
    if err.Some? {
      errorsOut.Send(err);
    } else {
      db.InsertEntries(l.ltype, entries, errorsOut);
      assert db.log == log0 + [RegisterCall(m), InsertCall(s.ltype, entries)];
    }
  }

  /** The storage part of refreshing one due list: RemoveList, then
      RegisterList with LastUpdate set to now, then InsertEntries of the
      fetched entries, stopping at the first failure. */
  method StoreRefreshed(db: Store, l: List, entries: seq<BlacklistedEntry>, errorsOut: Chan<Option<Error>>,
                        now: int64, ghost intended: bool)
    requires db.Valid() && !errorsOut.closed
    requires ShouldFetch(l.meta, now) && entries == Inserted(l.Spec(), intended)
    modifies db`log, db`registry, db`rows, errorsOut, l`meta
    ensures db.Valid() && !errorsOut.closed
    ensures db.log == old(db.log) + RefreshCalls(old(l.Spec()), now, db.fault, intended)
    ensures errorsOut.items == old(errorsOut.items) + RefreshStoreErrors(old(l.Spec()), now, db.fault, intended)
    ensures l.meta == Refreshed(old(l.meta), now, db.fault)
  {
    ghost var s := l.Spec();
    ghost var log0 := db.log;
    var err := db.RemoveList(l);
    if err.Some? {
      errorsOut.Send(err);
    } else {
      // From here on the list is handled as a new one.
      StoreCreated(db, l, entries, errorsOut, now, intended);
      AppendAssoc(log0, [RemoveCall(s.meta.name)], CreateCalls(s, now, db.fault, intended));
    }
  }

  /** One turn of `createNewLists`' loop, for a non-nil list. */
  method CreateOne(db: Store, l: List, errorsOut: Chan<Option<Error>>, now: int64, intended: bool)
    requires db.Valid() && !errorsOut.closed
    modifies db`log, db`registry, db`rows, errorsOut, l`meta
    ensures db.Valid() && !errorsOut.closed
    ensures db.log == old(db.log) + CreateCalls(old(l.Spec()), now, db.fault, intended)
    ensures errorsOut.items == old(errorsOut.items) + CreateErrors(old(l.Spec()), now, db.fault, intended)
    ensures l.meta == Created(old(l.meta), now)
  {
    if ShouldFetch(l.meta, now) {
      ghost var s, errs0 := l.Spec(), errorsOut.items;
      var entries := Fetch(l, errorsOut, intended);
      StoreCreated(db, l, entries.items, errorsOut, now, intended);
      AppendAssoc(errs0, FetchErrors(s, intended), CreateStoreErrors(s, now, db.fault, intended));
    }
  }

  /** Concatenation regrouped, on sequences the solver sees as plain
      values. */
  lemma AppendAssoc<T>(a: seq<T>, b: seq<T>, c: seq<T>)
    ensures a + b + c == a + (b + c)
  {
  }

  /** The loop itself, from its invariant before the first turn to the
      one after the last. */
  method RefreshLoop(db: Store, registered: seq<List?>, ghost specs: seq<ListSpec>, p: nat,
                    errorsOut: Chan<Option<Error>>, now: int64, intended: bool,
                    ghost log0: seq<Call>, ghost errs0: seq<Option<Error>>)
    requires db.Valid() && !errorsOut.closed && Distinct(registered)
    requires Refreshing(db, registered, specs, 0, p, errorsOut.items, now, intended, log0, errs0)
    modifies db`log, db`registry, db`rows, errorsOut, set l: List | l in registered
    ensures db.Valid() && !errorsOut.closed
    ensures Refreshing(db, registered, specs, p, p, errorsOut.items, now, intended, log0, errs0)
  {
    var i := 0;
    while i < p
      invariant 0 <= i <= p
      invariant db.Valid() && !errorsOut.closed
      invariant Refreshing(db, registered, specs, i, p, errorsOut.items, now, intended, log0, errs0)
    {
      RefreshStep(db, registered, specs, i, p, errorsOut, now, intended, log0, errs0);
      i := i + 1;
    }
  }

  /** One turn of `updateRegisteredLists`' loop over the first `p` (non-nil)
      lists, stated as the step from the turn's invariant to the next. */
  method RefreshStep(db: Store, registered: seq<List?>, ghost specs: seq<ListSpec>, i: nat, p: nat,
                     errorsOut: Chan<Option<Error>>, now: int64, intended: bool,
                     ghost log0: seq<Call>, ghost errs0: seq<Option<Error>>)
    requires i < p && db.Valid() && !errorsOut.closed && Distinct(registered)
    requires Refreshing(db, registered, specs, i, p, errorsOut.items, now, intended, log0, errs0)
    modifies db`log, db`registry, db`rows, errorsOut, registered[i]
    ensures db.Valid() && !errorsOut.closed
    ensures Refreshing(db, registered, specs, i + 1, p, errorsOut.items, now, intended, log0, errs0)
  {
    var l := registered[i];
    assert specs[..i + 1][..i] == specs[..i];
    RefreshOne(db, l, errorsOut, now, intended);
    AppendAssoc(log0, RefreshAll(specs[..i], now, db.fault, intended), RefreshCalls(specs[i], now, db.fault, intended));
    AppendAssoc(errs0, RefreshAllErrors(specs[..i], now, db.fault, intended), RefreshErrors(specs[i], now, db.fault, intended));
  }

  /** `updateRegisteredLists`: for each list whose cache time ran out,
      RemoveList, stamp LastUpdate, RegisterList, InsertEntries, going on
      with the next list when a call fails. It stops at the first nil list. */
  method UpdateRegisteredLists(db: Store, registered: seq<List?>, errorsOut: Chan<Option<Error>>, now: int64, intended: bool)
    returns (panicked: bool)
    requires db.Valid() && !errorsOut.closed && Distinct(registered)
    modifies db`log, db`registry, db`rows, errorsOut, set l: List | l in registered
    ensures db.Valid() && !errorsOut.closed
    ensures panicked <==> NonNil(registered) < |registered|
    ensures db.log == old(db.log) + RefreshAll(old(Specs(registered[..NonNil(registered)])), now, db.fault, intended)
    ensures errorsOut.items == old(errorsOut.items) + RefreshAllErrors(old(Specs(registered[..NonNil(registered)])), now, db.fault, intended)
    ensures forall k :: 0 <= k < NonNil(registered) ==>
              registered[k].meta == Refreshed(old(registered[k].meta), now, db.fault)
  {
    var p := NonNil(registered);
    ghost var specs := Specs(registered[..p]);
    RefreshLoop(db, registered, specs, p, errorsOut, now, intended, db.log, errorsOut.items);
    assert specs[..p] == specs;
    // The next turn of the Go loop dereferences the nil list and panics.
    panicked := p < |registered|;
  }

  /** The loop itself, from its invariant before the first turn to the
      one after the last. */
  method CreateLoop(db: Store, toAdd: seq<List?>, ghost specs: seq<ListSpec>, p: nat,
                    errorsOut: Chan<Option<Error>>, now: int64, intended: bool,
                    ghost log0: seq<Call>, ghost errs0: seq<Option<Error>>)
    requires db.Valid() && !errorsOut.closed && Distinct(toAdd)
    requires Creating(db, toAdd, specs, 0, p, errorsOut.items, now, intended, log0, errs0)
    modifies db`log, db`registry, db`rows, errorsOut, set l: List | l in toAdd
    ensures db.Valid() && !errorsOut.closed
    ensures Creating(db, toAdd, specs, p, p, errorsOut.items, now, intended, log0, errs0)
  {
    var i := 0;
    while i < p
      invariant 0 <= i <= p
      invariant db.Valid() && !errorsOut.closed
      invariant Creating(db, toAdd, specs, i, p, errorsOut.items, now, intended, log0, errs0)
    {
      CreateStep(db, toAdd, specs, i, p, errorsOut, now, intended, log0, errs0);
      i := i + 1;
    }
  }

  /** One turn of `createNewLists`' loop over the first `p` (non-nil) lists. */
  method CreateStep(db: Store, toAdd: seq<List?>, ghost specs: seq<ListSpec>, i: nat, p: nat,
                    errorsOut: Chan<Option<Error>>, now: int64, intended: bool,
                    ghost log0: seq<Call>, ghost errs0: seq<Option<Error>>)
    requires i < p && db.Valid() && !errorsOut.closed && Distinct(toAdd)
    requires Creating(db, toAdd, specs, i, p, errorsOut.items, now, intended, log0, errs0)
    modifies db`log, db`registry, db`rows, errorsOut, toAdd[i]
    ensures db.Valid() && !errorsOut.closed
    ensures Creating(db, toAdd, specs, i + 1, p, errorsOut.items, now, intended, log0, errs0)
  {
    var l := toAdd[i];
    assert specs[..i + 1][..i] == specs[..i];
    CreateOne(db, l, errorsOut, now, intended);
    AppendAssoc(log0, CreateAll(specs[..i], now, db.fault, intended), CreateCalls(specs[i], now, db.fault, intended));
    AppendAssoc(errs0, CreateAllErrors(specs[..i], now, db.fault, intended), CreateErrors(specs[i], now, db.fault, intended));
  }

  /** `createNewLists`: for each new list whose cache time ran out, stamp
      LastUpdate, RegisterList and, if that succeeds, InsertEntries. It
      stops at the first nil list. */
  method CreateNewLists(db: Store, toAdd: seq<List?>, errorsOut: Chan<Option<Error>>, now: int64, intended: bool)
    returns (panicked: bool)
    requires db.Valid() && !errorsOut.closed && Distinct(toAdd)
    modifies db`log, db`registry, db`rows, errorsOut, set l: List | l in toAdd
    ensures db.Valid() && !errorsOut.closed
    ensures panicked <==> NonNil(toAdd) < |toAdd|
    ensures db.log == old(db.log) + CreateAll(old(Specs(toAdd[..NonNil(toAdd)])), now, db.fault, intended)
    ensures errorsOut.items == old(errorsOut.items) + CreateAllErrors(old(Specs(toAdd[..NonNil(toAdd)])), now, db.fault, intended)
    ensures forall k :: 0 <= k < NonNil(toAdd) ==> toAdd[k].meta == Created(old(toAdd[k].meta), now)
  {
    var p := NonNil(toAdd);
    ghost var specs := Specs(toAdd[..p]);
    CreateLoop(db, toAdd, specs, p, errorsOut, now, intended, db.log, errorsOut.items);
    assert specs[..p] == specs;
    // The next turn of the Go loop dereferences the nil list and panics.
    panicked := p < |toAdd|;
  }

  /** The results of the registered RPCs for one index, in registration
      order. */
  function RPCResults(rpcs: seq<RPC>, index: string): (r: seq<DBEntry>)
    ensures |r| == |rpcs| && forall k :: 0 <= k < |rpcs| ==> r[k] == rpcs[k](index)
  {
    if |rpcs| == 0 then [] else RPCResults(rpcs[..|rpcs| - 1], index) + [rpcs[|rpcs| - 1](index)]
  }

  /** The errors `CheckEntries` hands to the error handler: one per index
      whose lookup fails, in index order. */
  function LookupErrors(db: Store, t: BlacklistedType, indexes: seq<string>): (r: seq<Error>)
    reads db
    ensures |r| <= |indexes|
  {
    if |indexes| == 0 then []
    else
      var last := db.FindEntries(t, indexes[|indexes| - 1]);
      LookupErrors(db, t, indexes[..|indexes| - 1]) + (if last.Failure? then [last.error] else [])
  }

  /** No error is handled exactly when every lookup succeeds. */
  lemma {:induction false} LookupErrorsNone(db: Store, t: BlacklistedType, indexes: seq<string>)
    ensures LookupErrors(db, t, indexes) == [] <==> forall i :: 0 <= i < |indexes| ==> db.FindEntries(t, indexes[i]).Success?
  {
    if |indexes| > 0 {
      LookupErrorsNone(db, t, indexes[..|indexes| - 1]);
    }
  }

  /** The inner loop of `CheckEntries`: appends the result of each RPC, in
      order, to the entries of one index. */
  method AppendRPCResults(results: map<string, seq<DBEntry>>, index: string, rpcs: seq<RPC>)
    returns (r: map<string, seq<DBEntry>>)
    requires index in results
    ensures r.Keys == results.Keys && r[index] == results[index] + RPCResults(rpcs, index)
    ensures forall x :: x in r && x != index ==> r[x] == results[x]
  {
    r := results;
    for j := 0 to |rpcs|
      invariant r.Keys == results.Keys && r[index] == results[index] + RPCResults(rpcs[..j], index)
      invariant forall x :: x in r && x != index ==> r[x] == results[x]
    {
      assert rpcs[..j + 1][..j] == rpcs[..j];
      r := r[index := r[index] + [rpcs[j](index)]];
    }
    assert rpcs[..|rpcs|] == rpcs;
  }

  /** What `Update` does with the registered metadata, as written. */
  method UpdateLists(db: Store, reg: Registry, metas: seq<Metadata>, errorsOut: Chan<Option<Error>>, now: int64)
    returns (panicked: bool)
    requires db.Valid() && !errorsOut.closed
    modifies db`log, db`registry, db`rows, errorsOut
    ensures db.Valid() && !errorsOut.closed
    ensures old(errorsOut.items) + MissingErrors(reg.listFactories, metas) <= errorsOut.items
    ensures "" !in reg.listFactories ==> errorsOut.items == old(errorsOut.items) + MissingErrors(reg.listFactories, metas)
    ensures "" !in reg.listFactories ==> db.log == old(db.log) && db.State() == old(db.State())
    ensures "" !in reg.listFactories ==> (panicked <==> |metas| > 0 || |reg.listFactories| > 0)
  {
    var registeredLists, listsToAdd, panic1 := BuildLists(reg, metas, errorsOut);
    if panic1 {
      return true;
    }
    ghost var errs1 := errorsOut.items;
    panicked := UpdateRegisteredLists(db, registeredLists, errorsOut, now, false);
    assert |metas| > 0 ==> panicked && db.log == old(db.log);
    assert |metas| == 0 ==> !panicked && db.log == old(db.log) by {
      if |metas| == 0 {
        assert registeredLists == [];
      }
    }
    ghost var errs2 := errorsOut.items;
    assert errs2[..|errs1|] == errs1;
    if panicked {
      return;
    }
    panicked := CreateNewLists(db, listsToAdd, errorsOut, now, false);
    assert errorsOut.items[..|errs1|] == errs1 by {
      assert errorsOut.items[..|errs2|] == errs2;
    }
  }

  /** The two lists `Update` works on, as written (the first steps of
      `Update`): what it needs to know about them is where the nil lists
      sit. */
  method BuildLists(reg: Registry, metas: seq<Metadata>, errorsOut: Chan<Option<Error>>)
    returns (registeredLists: seq<List?>, listsToAdd: seq<List?>, panicked: bool)
    requires !errorsOut.closed
    modifies errorsOut
    ensures !errorsOut.closed
    ensures errorsOut.items == old(errorsOut.items) + MissingErrors(reg.listFactories, metas)
    ensures panicked <==> |metas| > 0 && |reg.listFactories| > 0
    ensures forall l: List :: l in registeredLists ==> fresh(l)
    ensures Distinct(registeredLists)
    ensures |metas| == 0 ==> registeredLists == []
    ensures |metas| > 0 ==> NonNil(registeredLists) == 0 < |registeredLists|
    ensures !panicked ==> (forall l: List :: l in listsToAdd ==> fresh(l)) && Distinct(listsToAdd)
    ensures !panicked && |reg.listFactories| == 0 ==> listsToAdd == []
    ensures !panicked && |reg.listFactories| > 0 && "" !in reg.listFactories ==> NonNil(listsToAdd) == 0 < |listsToAdd|
  {
    registeredLists := GetListsFromMetas(reg, metas, errorsOut);
    forall l: List | l in registeredLists
      ensures fresh(l)
    {
      var k :| 0 <= k < |registeredLists| && registeredLists[k] == l;
    }
    if |metas| > 0 {
      assert registeredLists[0] == null;
    } else {
      assert registeredLists == [];
    }
    listsToAdd, panicked := GetListsToAddAfterNil(reg, registeredLists);
  }

  /** `getListsToAdd` as written, next to registered lists that are none
      or start with a nil list (what `getListsFromMetas` returns): it panics
      exactly when it has both a registered list and a factory to look at. */
  method GetListsToAddAfterNil(reg: Registry, registered: seq<List?>) returns (toAdd: seq<List?>, panicked: bool)
    requires registered == [] || NonNil(registered) == 0 < |registered|
    ensures panicked <==> |registered| > 0 && |reg.listFactories| > 0
    ensures !panicked ==> (forall l: List :: l in toAdd ==> fresh(l)) && Distinct(toAdd)
    ensures !panicked && |reg.listFactories| == 0 ==> toAdd == []
    ensures !panicked && |reg.listFactories| > 0 && "" !in reg.listFactories ==> NonNil(toAdd) == 0 < |toAdd|
  {
    ghost var F := reg.listFactories;
    var avail;
    toAdd, panicked, avail := GetListsToAdd(reg, registered);
    var names := Names(registered);
    if |registered| > 0 {
      if |avail| > 0 {
        assert names[0] == None;
        assert Lookup(avail[0], names).None?;
      }
    } else {
      assert names == [];
      forall i | 0 <= i < |avail| ensures Lookup(avail[i], names).Some? {
      }
    }
    if !panicked {
      forall l: List | l in toAdd
        ensures fresh(l)
      {
        var k :| 0 <= k < |toAdd| && toAdd[k] == l;
      }
    }
    if !panicked && |F| > 0 && "" !in F {
      assert names == [];
      MissingConcat([avail[0]], avail[1..], names);
      assert [avail[0]] + avail[1..] == avail;
      assert Missing([avail[0]], names) == [""] by { assert [avail[0]][..0] == []; }
    }
  }

  /** The new lists `getListsToAdd` builds as intended, next to registered
      lists none of which is nil. */
  method ListsToAddIntended(reg: Registry, lists: seq<List?>) returns (toAdd: seq<List?>, ghost avail: seq<string>)
    requires NonNil(lists) == |lists|
    ensures multiset(avail) == multiset(reg.listFactories.Keys)
    ensures forall l: List :: l in toAdd ==> fresh(l)
    ensures NonNil(toAdd) == |toAdd| && Distinct(toAdd)
    ensures Specs(toAdd) == Factories(reg.listFactories, Missing(avail, Names(lists)))
  {
    var names := Names(lists);
    var panicked;
    toAdd, panicked, avail := GetListsToAddIntended(reg, lists);
    forall i | 0 <= i < |avail| ensures Lookup(avail[i], names).Some? {
      LookupMembership(avail[i], names);
    }
    var missing := Missing(avail, names);
    forall k | 0 <= k < |missing| ensures missing[k] in reg.listFactories {
      MissingMembers(avail, names, missing[k]);
      assert missing[k] in multiset(avail);
    }
  }

  /** The lists `Update` works on, built as intended: the registered lists
      that have factories, and a new list for each available name that no
      registered list carries. */
  method BuildListsIntended(reg: Registry, metas: seq<Metadata>, errorsOut: Chan<Option<Error>>)
    returns (lists: seq<List?>, toAdd: seq<List?>, ghost avail: seq<string>)
    requires !errorsOut.closed
    modifies errorsOut
    ensures !errorsOut.closed
    ensures errorsOut.items == old(errorsOut.items) + MissingErrors(reg.listFactories, metas)
    ensures multiset(avail) == multiset(reg.listFactories.Keys)
    ensures forall l: List :: l in lists ==> fresh(l)
    ensures forall l: List :: l in toAdd ==> fresh(l) && l !in lists
    ensures NonNil(lists) == |lists| && Distinct(lists)
    ensures NonNil(toAdd) == |toAdd| && Distinct(toAdd)
    ensures Specs(lists) == Registered(reg.listFactories, metas)
    ensures Specs(toAdd) == Factories(reg.listFactories, Missing(avail, SpecNames(Registered(reg.listFactories, metas))))
  {
    lists := GetListsFromMetasIntended(reg, metas, errorsOut);
    assert Names(lists) == SpecNames(Specs(lists));
    toAdd, avail := ListsToAddIntended(reg, lists);
  }

  /** The two loops of `Update` over non-nil, distinct lists. */
  method RefreshThenCreate(db: Store, lists: seq<List?>, toAdd: seq<List?>, errorsOut: Chan<Option<Error>>,
                           now: int64, intended: bool)
    requires db.Valid() && !errorsOut.closed
    requires NonNil(lists) == |lists| && Distinct(lists)
    requires NonNil(toAdd) == |toAdd| && Distinct(toAdd)
    requires forall l: List :: l in toAdd ==> l !in lists
    modifies db`log, db`registry, db`rows, errorsOut, set l: List | l in lists, set l: List | l in toAdd
    ensures db.Valid() && !errorsOut.closed
    ensures db.log == old(db.log) + RefreshAll(old(Specs(lists)), now, db.fault, intended)
                                  + CreateAll(old(Specs(toAdd)), now, db.fault, intended)
    ensures errorsOut.items == old(errorsOut.items) + RefreshAllErrors(old(Specs(lists)), now, db.fault, intended)
                                                    + CreateAllErrors(old(Specs(toAdd)), now, db.fault, intended)
  {
    ghost var adds := Specs(toAdd);
    var panic2 := UpdateRegisteredLists(db, lists, errorsOut, now, intended);
    assert lists[..|lists|] == lists;
    assert toAdd[..|toAdd|] == toAdd;
    assert Specs(toAdd) == adds;
    var panic3 := CreateNewLists(db, toAdd, errorsOut, now, intended);
  }

  /** What `Update` does with the registered metadata, as intended. */
  method UpdateListsIntended(db: Store, reg: Registry, metas: seq<Metadata>, errorsOut: Chan<Option<Error>>, now: int64)
    returns (ghost avail: seq<string>)
    requires db.Valid() && !errorsOut.closed
    modifies db`log, db`registry, db`rows, errorsOut
    ensures db.Valid() && !errorsOut.closed
    ensures multiset(avail) == multiset(reg.listFactories.Keys)
    ensures var regs := Registered(reg.listFactories, metas);
            var adds := Factories(reg.listFactories, Missing(avail, SpecNames(regs)));
            db.log == old(db.log) + RefreshAll(regs, now, db.fault, true) + CreateAll(adds, now, db.fault, true)
            && errorsOut.items == old(errorsOut.items) + MissingErrors(reg.listFactories, metas)
                                  + RefreshAllErrors(regs, now, db.fault, true) + CreateAllErrors(adds, now, db.fault, true)
  {
    var lists, toAdd;
    lists, toAdd, avail := BuildListsIntended(reg, metas, errorsOut);
    ghost var errs1 := errorsOut.items;
    RefreshThenCreate(db, lists, toAdd, errorsOut, now, true);
    ghost var regs := Registered(reg.listFactories, metas);
    ghost var adds := Factories(reg.listFactories, Missing(avail, SpecNames(regs)));
    AppendAssoc(old(errorsOut.items) + MissingErrors(reg.listFactories, metas),
                RefreshAllErrors(regs, now, db.fault, true), CreateAllErrors(adds, now, db.fault, true));
  }

  /** The loop invariant of `CheckEntries` after the first `i` indexes. */
  ghost predicate Checked(db: Store, t: BlacklistedType, rpcs: seq<RPC>, indexes: seq<string>, i: nat,
                          results: map<string, seq<DBEntry>>, handled: seq<Error>)
    requires i <= |indexes|
    reads db
  {
    (forall x :: x in results <==> x in indexes[..i] && db.FindEntries(t, x).Success?)
    && (forall x :: x in results ==> results[x] == db.FindEntries(t, x).value + RPCResults(rpcs, x))
    && handled == LookupErrors(db, t, indexes[..i])
  }

  /** One turn of the `CheckEntries` loop. */
  method CheckStep(db: Store, t: BlacklistedType, rpcs: seq<RPC>, indexes: seq<string>, i: nat,
                   results: map<string, seq<DBEntry>>, handled: seq<Error>)
    returns (results': map<string, seq<DBEntry>>, handled': seq<Error>)
    requires i < |indexes| && Checked(db, t, rpcs, indexes, i, results, handled)
    ensures Checked(db, t, rpcs, indexes, i + 1, results', handled')
  {
    var index := indexes[i];
    var entries := db.FindEntries(t, index);
    if entries.Failure? {
      CheckedFailure(db, t, rpcs, indexes, i, results, handled);
      return results, handled + [entries.error];
    }
    results' := AppendRPCResults(results[index := entries.value], index, rpcs);
    CheckedSuccess(db, t, rpcs, indexes, i, results, handled, results');
    handled' := handled;
  }

  lemma CheckedFailure(db: Store, t: BlacklistedType, rpcs: seq<RPC>, indexes: seq<string>, i: nat,
                       results: map<string, seq<DBEntry>>, handled: seq<Error>)
    requires i < |indexes| && Checked(db, t, rpcs, indexes, i, results, handled)
    requires db.FindEntries(t, indexes[i]).Failure?
    ensures Checked(db, t, rpcs, indexes, i + 1, results, handled + [db.FindEntries(t, indexes[i]).error])
  {
    assert indexes[..i + 1] == indexes[..i] + [indexes[i]];
  }

  lemma CheckedSuccess(db: Store, t: BlacklistedType, rpcs: seq<RPC>, indexes: seq<string>, i: nat,
                       results: map<string, seq<DBEntry>>, handled: seq<Error>, results': map<string, seq<DBEntry>>)
    requires i < |indexes| && Checked(db, t, rpcs, indexes, i, results, handled)
    requires db.FindEntries(t, indexes[i]).Success?
    requires results'.Keys == results.Keys + {indexes[i]}
    requires results'[indexes[i]] == db.FindEntries(t, indexes[i]).value + RPCResults(rpcs, indexes[i])
    requires forall x :: x in results' && x != indexes[i] ==> results'[x] == results[x]
    ensures Checked(db, t, rpcs, indexes, i + 1, results', handled)
  {
    var pre, index := indexes[..i], indexes[i];
    assert indexes[..i + 1] == pre + [index];
    forall x ensures x in results' <==> x in pre + [index] && db.FindEntries(t, x).Success? {
      assert x in pre + [index] <==> x in pre || x == index;
    }
    assert LookupErrors(db, t, pre + [index]) == handled by {
      assert (pre + [index])[..i] == pre;
    }
    forall x | x in results' ensures results'[x] == db.FindEntries(t, x).value + RPCResults(rpcs, x) {
      if x != index { assert x in results; }
    }
  }

  /** The `Blacklist` controller over a database handle and the sources
      registry. */
  class Blacklist {
    const db: Store
    const sources: Registry

    /** `NewBlacklist`, given an open handle. */
    constructor (db: Store, sources: Registry)
      ensures this.db == db && this.sources == sources
    {
      this.db := db;
      this.sources := sources;
    }

    /** `Update()` as written. Unless "" is itself a registered name, the
        nil lists that the two make-with-length slices introduce are
        dereferenced before any storage call: the run panics as soon as
        there is a registered list or a factory, and the database sees
        nothing but GetRegisteredLists. */
    method Update(now: int64) returns (handled: seq<Option<Error>>, panicked: bool)
      requires db.Valid()
      modifies db`log, db`registry, db`rows
      ensures db.Valid()
      ensures db.fault(GetLists).Some? ==> !panicked && handled == [db.fault(GetLists)] && db.log == old(db.log) + [GetLists]
      ensures db.fault(GetLists).None? ==> MissingErrors(sources.listFactories, old(db.registry)) <= handled
      ensures db.fault(GetLists).None? && "" !in sources.listFactories ==> handled == MissingErrors(sources.listFactories, old(db.registry))
      ensures "" !in sources.listFactories ==> db.log == old(db.log) + [GetLists] && db.State() == old(db.State())
      ensures "" !in sources.listFactories ==>
                (panicked <==> db.fault(GetLists).None? && (|old(db.registry)| > 0 || |sources.listFactories| > 0))
    {
      var errorChannel := new Chan<Option<Error>>();
      var r := db.GetRegisteredLists();
      if r.Failure? {
        errorChannel.Send(Some(r.error));
        errorChannel.Close();
        return errorChannel.items, false;
      }
      panicked := UpdateLists(db, sources, r.value, errorChannel, now);
      errorChannel.Close();
      handled := errorChannel.items;
    }

    /** `Update()` with both make-with-length slices corrected: every
        registered list whose factory exists is refreshed, then every
        available name that no registered list carries is created, in the
        order `GetAvailableLists` returns them (some order of the
        factories' names). */
    method UpdateIntended(now: int64) returns (handled: seq<Option<Error>>)
      requires db.Valid()
      modifies db`log, db`registry, db`rows
      ensures db.Valid()
      ensures db.fault(GetLists).Some? ==> handled == [db.fault(GetLists)] && db.log == old(db.log) + [GetLists]
      ensures db.fault(GetLists).None? ==>
                var F, regs := sources.listFactories, Registered(sources.listFactories, old(db.registry));
                exists avail: seq<string> {:trigger Missing(avail, SpecNames(regs))} ::
                  multiset(avail) == multiset(F.Keys)
                  && var adds := Factories(F, Missing(avail, SpecNames(regs)));
                  db.log == old(db.log) + [GetLists] + RefreshAll(regs, now, db.fault, true) + CreateAll(adds, now, db.fault, true)
                  && handled == MissingErrors(F, old(db.registry)) + RefreshAllErrors(regs, now, db.fault, true)
                                + CreateAllErrors(adds, now, db.fault, true)
    {
      var errorChannel := new Chan<Option<Error>>();
      var r := db.GetRegisteredLists();
      if r.Failure? {
        errorChannel.Send(Some(r.error));
        errorChannel.Close();
        return errorChannel.items;
      }
      ghost var F, regs := sources.listFactories, Registered(sources.listFactories, r.value);
      ghost var avail := UpdateListsIntended(db, sources, r.value, errorChannel, now);
      ghost var adds := Factories(F, Missing(avail, SpecNames(regs)));
      errorChannel.Close();
      handled := errorChannel.items;
      assert [] + MissingErrors(F, r.value) == MissingErrors(F, r.value);
      assert handled == MissingErrors(F, r.value) + RefreshAllErrors(regs, now, db.fault, true)
                        + CreateAllErrors(adds, now, db.fault, true);
    }

    /** `CheckEntries(entryType, indexes...)`: each index whose lookup
        succeeds maps to its cached entries followed by one result per RPC
        registered for the type; a failed lookup is handed to the error
        handler and leaves the index out. It changes nothing. */
    method CheckEntries(entryType: BlacklistedType, indexes: seq<string>)
      returns (results: map<string, seq<DBEntry>>, handled: seq<Error>)
      ensures forall x :: x in results <==> x in indexes && db.FindEntries(entryType, x).Success?
      ensures forall x :: x in results ==>
                results[x] == db.FindEntries(entryType, x).value + RPCResults(sources.GetRPCs(entryType), x)
      ensures handled == LookupErrors(db, entryType, indexes)
    {
      var rpcs := sources.GetRPCs(entryType);
      results, handled := map[], [];
      for i := 0 to |indexes|
        invariant Checked(db, entryType, rpcs, indexes, i, results, handled)
      {
        results, handled := CheckStep(db, entryType, rpcs, indexes, i, results, handled);
      }
      assert indexes[..|indexes|] == indexes;
    }
  }
}
