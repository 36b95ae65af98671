/** database/mongodb.go: the MongoDB storage driver. The server is an
    abstract store of collections; every call the driver makes is logged and
    answered by the `answer` oracle of the handle (see module Storage). The
    effect of a successful call is applied to the store where the server
    would apply it; a failed call changes nothing. */
module MongoDB {
  import opened Base
  import opened ListEntry
  import opened Streams
  import opened Feeds
  import opened Storage

  /** `listsCollection`. */
  const ListsCollection: string := "lists"

  /** The error `mgo` returns when no document matches a selector. */
  const NotFound: Error := Error("not found")

  /** The server calls the driver makes. */
  datatype Call =
    | CollectionNames
    | Create(collection: string)
    | EnsureIndex(collection: string, key: seq<string>, unique: bool)
    | Insert(meta: Metadata)
    | Remove(name: string)
    | Update(meta: Metadata)
    | RemoveAll(collection: string, list: string)
    | BulkRun(collection: string, docs: seq<BlacklistResult>)
    | FindLists
    | Find(collection: string, index: string)

  /** The database: the names of its collections, in creation order, the
      documents of the lists collection, and the documents of each entry
      type's collection. */
  datatype Store = Store(collections: seq<string>, lists: seq<Metadata>, entries: map<string, seq<BlacklistResult>>)

  /** The position of the first list document with the given name, or the
      number of documents when there is none. */
  function FirstNamed(lists: seq<Metadata>, name: string): (k: nat)
    ensures k <= |lists|
    ensures k < |lists| ==> lists[k].name == name
    ensures forall j :: 0 <= j < k ==> lists[j].name != name
  {
    if |lists| == 0 then 0
    else if lists[0].name == name then 0
    else 1 + FirstNamed(lists[1..], name)
  }

  /** The calls `ClearCache` makes when none fails. */
  function RemoveAlls(types: seq<EntryType>, name: string): (r: seq<Call>)
    ensures |r| == |types|
  {
    if |types| == 0 then [] else RemoveAlls(types[..|types| - 1], name) + [RemoveAll(types[|types| - 1], name)]
  }

  lemma {:induction false} RemoveAllsConcat(xs: seq<EntryType>, ys: seq<EntryType>, name: string)
    ensures RemoveAlls(xs + ys, name) == RemoveAlls(xs, name) + RemoveAlls(ys, name)
    decreases |ys|
  {
    if |ys| == 0 {
      assert xs + ys == xs;
    } else {
      RemoveAllsConcat(xs, ys[..|ys| - 1], name);
      assert (xs + ys)[..|xs + ys| - 1] == xs + ys[..|ys| - 1];
    }
  }

  /** One more `RemoveAll` of `ClearCache`: its answer either lets the
      loop go on or ends the whole plan at this type. */
  lemma ClearStep(answer: nat -> Option<Error>, log0: seq<Call>, before: seq<Call>, log: seq<Call>, types: seq<EntryType>, k: nat, name: string,
                  err: Option<Error>, entries0: map<string, seq<BlacklistResult>>, entries: map<string, seq<BlacklistResult>>)
    requires k < |types| && Tried(answer, log0, before, RemoveAlls(types[..k], name), None)
    requires log == before + [RemoveAll(types[k], name)] && err == answer(|before|)
    ensures err.None? ==> Tried(answer, log0, log, RemoveAlls(types[..k + 1], name), None)
    ensures entries == Cleared(entries0, types[..k], name) ==>
              entries[types[k] := Without(Docs(entries, types[k]), name)] == Cleared(entries0, types[..k + 1], name)
    ensures err.Some? ==> Tried(answer, log0, log, RemoveAlls(types, name), err) && FirstFault(answer, |log0|, |types|) == k
  {
    assert types[..k + 1][..k] == types[..k];
    TriedOne(answer, before, RemoveAll(types[k], name));
    TriedThen(answer, log0, before, log, RemoveAlls(types[..k], name), [RemoveAll(types[k], name)], err);
    if err.Some? {
      OutcomeNone(answer, |log0|, RemoveAlls(types[..k], name));
      FirstFaultAt(answer, |log0|, |types|, k);
      ClearHalt(answer, log0, log, types, k, name, err.value);
    }
  }

  /** A failed `RemoveAll` ends the clearing there. */
  lemma ClearHalt(answer: nat -> Option<Error>, log0: seq<Call>, log: seq<Call>, types: seq<EntryType>, k: nat, name: string, e: Error)
    requires k < |types| && Tried(answer, log0, log, RemoveAlls(types[..k + 1], name), Some(e))
    ensures Tried(answer, log0, log, RemoveAlls(types, name), Some(e))
  {
    TriedStop(answer, log0, log, RemoveAlls(types[..k + 1], name), RemoveAlls(types[k + 1..], name), e);
    RemoveAllsConcat(types[..k + 1], types[k + 1..], name);
    SplitAt(types, k + 1);
  }

  /** The calls `RegisterList` checks: the snapshot of collection names,
      the lists collection and its unique name index when the snapshot
      lacks it, and the insert of the metadata. */
  function Checked(l: Metadata, names: seq<string>): seq<Call>
  {
    [CollectionNames] + ListsSetup(names) + [Insert(l)]
  }

  function ListsSetup(names: seq<string>): seq<Call>
  {
    if ListsCollection in names then [] else [Create(ListsCollection), EnsureIndex(ListsCollection, ["name"], true)]
  }

  /** The calls for one entry type: its collection and two indexes when
      the snapshot lacks it, nothing otherwise. */
  function TypeSetupOne(t: EntryType, names: seq<string>): seq<Call>
  {
    if t in names then [] else [Create(t), EnsureIndex(t, ["$hashed:index"], false), EnsureIndex(t, ["index", "list"], true)]
  }

  /** The calls for the entry collections, whose errors are ignored. */
  function TypeSetup(types: seq<EntryType>, names: seq<string>): seq<Call>
  {
    if |types| == 0 then [] else TypeSetup(types[..|types| - 1], names) + TypeSetupOne(types[|types| - 1], names)
  }

  /** The entry collection created for one type whose calls start at `pos`. */
  function TypeCreated(answer: nat -> Option<Error>, pos: nat, t: EntryType, names: seq<string>): seq<string>
  {
    if t !in names && answer(pos).None? then [t] else []
  }

  /** The entry collections created: a type absent from the snapshot, once
      for each time it is listed, when its `Create` succeeds. */
  function TypesCreated(answer: nat -> Option<Error>, pos: nat, types: seq<EntryType>, names: seq<string>): seq<string>
  {
    if |types| == 0 then []
    else
      var init := types[..|types| - 1];
      TypesCreated(answer, pos, init, names) + TypeCreated(answer, pos + |TypeSetup(init, names)|, types[|types| - 1], names)
  }

  /** The lists collection is created when the snapshot lacks it and both
      the snapshot and the `Create` succeed. */
  function ListsCreated(answer: nat -> Option<Error>, pos: nat, names: seq<string>): seq<string>
  {
    if ListsCollection !in names && answer(pos).None? && answer(pos + 1).None? then [ListsCollection] else []
  }

  /** `RegisterList` creates exactly the entry collections the snapshot
      lacks, each with its two indexes, and nothing else. */
  lemma {:induction false} TypeSetupCreates(types: seq<EntryType>, names: seq<string>, c: string)
    ensures Create(c) in TypeSetup(types, names) <==> c in types && c !in names
    ensures forall k :: 0 <= k < |TypeSetup(types, names)| ==>
              (TypeSetup(types, names)[k].Create? || TypeSetup(types, names)[k].EnsureIndex?) && TypeSetup(types, names)[k].collection in types
    ensures ListsCollection !in types ==> Create(ListsCollection) !in TypeSetup(types, names)
    decreases |types|
  {
    if |types| > 0 {
      var init := types[..|types| - 1];
      TypeSetupCreates(init, names, c);
      assert c in types <==> c in init || c == types[|types| - 1];
      assert forall x :: x in init ==> x in types;
    }
  }

  /** One more type set up extends the calls and the collections. */
  lemma SetupStep(answer: nat -> Option<Error>, start: nat, types: seq<EntryType>, k: nat, names: seq<string>,
                  log0: seq<Call>, log1: seq<Call>, log2: seq<Call>, cols0: seq<string>, cols1: seq<string>, cols2: seq<string>)
    requires k < |types| && start == |log0|
    requires log1 == log0 + TypeSetup(types[..k], names) && log2 == log1 + TypeSetupOne(types[k], names)
    requires cols1 == cols0 + TypesCreated(answer, start, types[..k], names)
    requires cols2 == cols1 + TypeCreated(answer, |log1|, types[k], names)
    ensures log2 == log0 + TypeSetup(types[..k + 1], names)
    ensures cols2 == cols0 + TypesCreated(answer, start, types[..k + 1], names)
  {
    assert types[..k + 1][..k] == types[..k];
    SeqAssoc(log0, TypeSetup(types[..k], names), TypeSetupOne(types[k], names));
    SeqAssoc(cols0, TypesCreated(answer, start, types[..k], names), TypeCreated(answer, |log1|, types[k], names));
  }

  /** The documents stored by the bulk runs of `batches` issued from call
      `pos` on: those of the runs that succeed. */
  function Stored(answer: nat -> Option<Error>, pos: nat, batches: seq<seq<BlacklistResult>>): seq<BlacklistResult>
  {
    if |batches| == 0 then []
    else
      Stored(answer, pos, batches[..|batches| - 1])
      + if answer(pos + |batches| - 1).None? then batches[|batches| - 1] else []
  }

  /** One bulk run per batch, in order. */
  function Runs(collection: string, batches: seq<seq<BlacklistResult>>): (r: seq<Call>)
    ensures |r| == |batches|
  {
    if |batches| == 0 then [] else Runs(collection, batches[..|batches| - 1]) + [BulkRun(collection, batches[|batches| - 1])]
  }

  lemma RunsSnoc(collection: string, batches: seq<seq<BlacklistResult>>, p: seq<BlacklistResult>)
    ensures Runs(collection, batches + [p]) == Runs(collection, batches) + [BulkRun(collection, p)]
  {
    assert (batches + [p])[..|batches|] == batches;
  }

  lemma StoredSnoc(answer: nat -> Option<Error>, pos: nat, batches: seq<seq<BlacklistResult>>, p: seq<BlacklistResult>)
    ensures Stored(answer, pos, batches + [p]) == Stored(answer, pos, batches) + if answer(pos + |batches|).None? then p else []
  {
    assert (batches + [p])[..|batches|] == batches;
  }

  /** When every bulk run succeeds, every entry is stored once, in order. */
  lemma {:induction false} StoredAll(answer: nat -> Option<Error>, pos: nat, batches: seq<seq<BlacklistResult>>)
    requires forall k :: pos <= k < pos + |batches| ==> answer(k).None?
    ensures Stored(answer, pos, batches) == Flatten(batches)
    decreases |batches|
  {
    if |batches| > 0 {
      StoredAll(answer, pos, batches[..|batches| - 1]);
    }
  }

  /** A failed run loses exactly its own batch: what is stored is what the
      successful runs carry. */
  lemma {:induction false} StoredSome(answer: nat -> Option<Error>, pos: nat, batches: seq<seq<BlacklistResult>>, d: BlacklistResult)
    ensures d in Stored(answer, pos, batches) <==> exists k :: 0 <= k < |batches| && answer(pos + k).None? && d in batches[k]
    decreases |batches|
  {
    if |batches| > 0 {
      var init := batches[..|batches| - 1];
      StoredSome(answer, pos, init, d);
      assert forall k :: 0 <= k < |init| ==> init[k] == batches[k];
    }
  }

  /** When every bulk run of `InsertEntries` succeeds, nothing is reported
      and the collection gains the stream's documents, each once, in
      order. */
  lemma InsertedAll(answer: nat -> Option<Error>, pos: nat, entries: seq<BlacklistedEntry>)
    requires forall k :: pos <= k < pos + |Chunks(Documents(entries))| ==> answer(k).None?
    ensures Stored(answer, pos, Chunks(Documents(entries))) == Documents(entries)
    ensures Faults(answer, pos, pos + |Chunks(Documents(entries))|) == []
  {
    StoredAll(answer, pos, Chunks(Documents(entries)));
    ChunksFlatten(Documents(entries));
    FaultsNone(answer, pos, pos + |Chunks(Documents(entries))|);
  }

  /** `s` is `s0` with `rows` added at the end of collection `t`. */
  ghost predicate Appended(s0: Store, s: Store, t: string, rows: seq<BlacklistResult>)
  {
    && s.collections == s0.collections && s.lists == s0.lists
    && Docs(s.entries, t) == Docs(s0.entries, t) + rows
    && forall c :: c != t ==> Docs(s.entries, c) == Docs(s0.entries, c)
  }

  lemma AppendedTrans(s0: Store, s1: Store, s2: Store, t: string, a: seq<BlacklistResult>, b: seq<BlacklistResult>)
    requires Appended(s0, s1, t, a) && Appended(s1, s2, t, b)
    ensures Appended(s0, s2, t, a + b)
  {
  }

  /** The bulk runs of `batches` were issued from position `|log0|` on, the
      errors of the failed ones were reported in order, and the documents
      of the successful ones were appended to collection `t`. */
  ghost predicate Drained(answer: nat -> Option<Error>, t: EntryType, batches: seq<seq<BlacklistResult>>,
                          log0: seq<Call>, log: seq<Call>, errors0: seq<Error>, errors: seq<Error>, store0: Store, store: Store)
  {
    && log == log0 + Runs(t, batches)
    && errors == errors0 + Faults(answer, |log0|, |log0| + |batches|)
    && Appended(store0, store, t, Stored(answer, |log0|, batches))
  }

  /** The state of `InsertEntries` after the documents `seen`: the full
      batches are drained and `bulk` holds the pending documents. */
  ghost predicate Pumped(answer: nat -> Option<Error>, entryType: EntryType, seen: seq<BlacklistResult>, bulk: seq<BlacklistResult>,
                         log0: seq<Call>, log: seq<Call>, errors0: seq<Error>, errors: seq<Error>, store0: Store, store: Store)
  {
    bulk == Batch(seen).pending && Drained(answer, entryType, Batch(seen).full, log0, log, errors0, errors, store0, store)
  }

  /** One more bulk run drains one more batch. */
  lemma DrainedSnoc(answer: nat -> Option<Error>, t: EntryType, batches: seq<seq<BlacklistResult>>, p: seq<BlacklistResult>,
                    log0: seq<Call>, log1: seq<Call>, log: seq<Call>, errors0: seq<Error>, errors1: seq<Error>, errors: seq<Error>,
                    store0: Store, store1: Store, store: Store)
    requires Drained(answer, t, batches, log0, log1, errors0, errors1, store0, store1)
    requires log == log1 + [BulkRun(t, p)]
    requires errors == errors1 + if answer(|log1|).Some? then [answer(|log1|).value] else []
    requires Appended(store1, store, t, if answer(|log1|).None? then p else [])
    ensures Drained(answer, t, batches + [p], log0, log, errors0, errors, store0, store)
  {
    var at := |log0| + |batches|;
    assert |log1| == at;
    FaultsStep(answer, |log0|, at, errors0, errors1);
    AppendedTrans(store0, store1, store, t, Stored(answer, |log0|, batches), if answer(at).None? then p else []);
    RunsSnoc(t, batches, p);
    SeqAssoc(log0, Runs(t, batches), [BulkRun(t, p)]);
    StoredSnoc(answer, |log0|, batches, p);
    assert |batches + [p]| == |batches| + 1;
  }

  /** `mongoDB`: a session on one database. */
  class Mongo {
    var store: Store
    var log: seq<Call>
    const answer: nat -> Option<Error>

    constructor (initial: Store, answer: nat -> Option<Error>)
      ensures store == initial && log == [] && this.answer == answer
    {
      store := initial;
      log := [];
      this.answer := answer;
    }

    /** One call to the server: logged, answered, no effect by itself. */
    method Perform(c: Call) returns (err: Option<Error>)
      modifies this
      ensures log == old(log) + [c] && err == answer(|old(log)|) && store == old(store)
    {
      err := answer(|log|);
      log := log + [c];
    }

    /** `GetRegisteredLists`: every document of the lists collection, or the
        query's error. */
    method GetRegisteredLists() returns (r: Result<seq<Metadata>, Error>)
      modifies this
      ensures log == old(log) + [FindLists] && store == old(store)
      ensures answer(|old(log)|).Some? ==> r == Failure(answer(|old(log)|).value)
      ensures answer(|old(log)|).None? ==> r == Success(store.lists)
    {
      var err := Perform(FindLists);
      if err.Some? {
        return Failure(err.value);
      }
      return Success(store.lists);
    }

    /** The `found` loops of `RegisterList`. */
    static method Found(names: seq<string>, x: string) returns (found: bool)
      ensures found <==> x in names
    {
      found := false;
      for i := 0 to |names|
        invariant !found && x !in names[..i]
      {
        if names[i] == x {
          found := true;
          break;
        }
        assert names[..i + 1] == names[..i] + [names[i]];
      }
      assert !found ==> names[..|names|] == names;
    }

    /** One turn of the second loop of `RegisterList`. */
    method SetupType(entryType: EntryType, names: seq<string>)
      modifies this
      ensures log == old(log) + TypeSetupOne(entryType, names)
      ensures store == old(store).(collections := old(store).collections + TypeCreated(answer, |old(log)|, entryType, names))
    {
      var found := Found(names, entryType);
      if !found {
        var err := Perform(Create(entryType));
        if err.None? {
          store := store.(collections := store.collections + [entryType]);
        }
        err := Perform(EnsureIndex(entryType, ["$hashed:index"], false));
        err := Perform(EnsureIndex(entryType, ["index", "list"], true));
      }
    }

    /** The second loop of `RegisterList`: for each type absent from the
        snapshot, create its collection and its two indexes, ignoring every
        error. */
    method SetupTypes(types: seq<EntryType>, names: seq<string>)
      modifies this
      ensures log == old(log) + TypeSetup(types, names)
      ensures store == old(store).(collections := old(store).collections + TypesCreated(answer, |old(log)|, types, names))
    {
      ghost var start := |log|;
      for k := 0 to |types|
        invariant log == old(log) + TypeSetup(types[..k], names)
        invariant store == old(store).(collections := old(store).collections + TypesCreated(answer, start, types[..k], names))
      {
        ghost var log1, cols1 := log, store.collections;
        SetupType(types[k], names);
        SetupStep(answer, start, types, k, names, old(log), log1, log, old(store).collections, cols1, store.collections);
      }
      assert types[..|types|] == types;
    }

    /** The lists collection with its unique index on `name`, stopping at
        the first error. */
    method CreateListsCollection() returns (err: Option<Error>)
      modifies this
      ensures Tried(answer, old(log), log, [Create(ListsCollection), EnsureIndex(ListsCollection, ["name"], true)], err)
      ensures store == old(store).(collections := old(store).collections + if answer(|old(log)|).None? then [ListsCollection] else [])
    {
      err := Perform(Create(ListsCollection));
      TriedOne(answer, old(log), Create(ListsCollection));
      if err.Some? {
        TriedStop(answer, old(log), log, [Create(ListsCollection)], [EnsureIndex(ListsCollection, ["name"], true)], err.value);
        return;
      }
      store := store.(collections := store.collections + [ListsCollection]);
      ghost var mid := log;
      err := Perform(EnsureIndex(ListsCollection, ["name"], true));
      TriedOne(answer, mid, EnsureIndex(ListsCollection, ["name"], true));
      TriedThen(answer, old(log), mid, log, [Create(ListsCollection)], [EnsureIndex(ListsCollection, ["name"], true)], err);
    }

    /** The checked part of `RegisterList`: the snapshot of collection
        names, the lists collection when it is missing, and the insert of
        the metadata, stopping at the first error. */
    method Register(l: Metadata) returns (err: Option<Error>, collectionNames: seq<string>)
      modifies this
      ensures Tried(answer, old(log), log, Checked(l, old(store).collections), err)
      ensures collectionNames == old(store).collections
      ensures store.lists == old(store).lists + (if err.None? then [l] else []) && store.entries == old(store).entries
      ensures store.collections == old(store).collections + ListsCreated(answer, |old(log)|, old(store).collections)
    {
      ghost var names := store.collections;
      ghost var rest := ListsSetup(names) + [Insert(l)];
      assert Checked(l, names) == [CollectionNames] + rest;
      collectionNames := store.collections;
      err := Perform(CollectionNames);
      TriedOne(answer, old(log), CollectionNames);
      if err.Some? {
        TriedStop(answer, old(log), log, [CollectionNames], rest, err.value);
        return;
      }
      ghost var afterNames := log;
      var found := Found(collectionNames, ListsCollection);
      if !found {
        err := CreateListsCollection();
        if err.Some? {
          TriedStop(answer, afterNames, log, ListsSetup(names), [Insert(l)], err.value);
          TriedThen(answer, old(log), afterNames, log, [CollectionNames], rest, err);
          return;
        }
      } else {
        TriedNothing(answer, afterNames);
      }
      ghost var afterLists := log;
      err := Perform(Insert(l));
      TriedOne(answer, afterLists, Insert(l));
      TriedThen(answer, afterNames, afterLists, log, ListsSetup(names), [Insert(l)], err);
      TriedThen(answer, old(log), afterNames, log, [CollectionNames], rest, err);
      if err.None? {
        store := store.(lists := store.lists + [l]);
      }
    }

    /** `RegisterList`: the checked calls stop at the first error, which is
        returned; after them the entry collections are set up whatever
        their answers. On success the metadata is the last list document. */
    method RegisterList(l: Metadata) returns (err: Option<Error>)
      modifies this
      ensures var plan := Checked(l, old(store).collections);
              && err == Outcome(answer, |old(log)|, plan)
              && log == old(log) + Made(answer, |old(log)|, plan) + if err.None? then TypeSetup(l.types, old(store).collections) else []
      ensures store.lists == old(store).lists + (if err.None? then [l] else []) && store.entries == old(store).entries
      ensures store.collections == old(store).collections + ListsCreated(answer, |old(log)|, old(store).collections)
                + if err.None? then TypesCreated(answer, |old(log)| + |Checked(l, old(store).collections)|, l.types, old(store).collections) else []
    {
      var collectionNames;
      err, collectionNames := Register(l);
      if err.Some? {
        assert log == old(log) + Made(answer, |old(log)|, Checked(l, old(store).collections)) + [];
        return;
      }
      OutcomeNone(answer, |old(log)|, Checked(l, collectionNames));
      SetupTypes(l.types, collectionNames);
    }

    /** One `RemoveAll` of `ClearCache`. */
    method ClearOne(entryType: EntryType, name: string) returns (err: Option<Error>)
      modifies this
      ensures log == old(log) + [RemoveAll(entryType, name)] && err == answer(|old(log)|)
      ensures store == if err.None? then old(store).(entries := old(store).entries[entryType := Without(Docs(old(store).entries, entryType), name)]) else old(store)
    {
      err := Perform(RemoveAll(entryType, name));
      if err.None? {
        store := store.(entries := store.entries[entryType := Without(Docs(store.entries, entryType), name)]);
      }
    }

    /** `ClearCache`: removes the list's documents from each of its types'
        collections in turn, stopping at the first error. */
    method ClearCache(l: Metadata) returns (err: Option<Error>)
      modifies this
      ensures Tried(answer, old(log), log, RemoveAlls(l.types, l.name), err)
      ensures store == old(store).(entries := Cleared(old(store).entries, l.types[..FirstFault(answer, |old(log)|, |l.types|)], l.name))
    {
      TriedNothing(answer, log);
      for k := 0 to |l.types|
        invariant Tried(answer, old(log), log, RemoveAlls(l.types[..k], l.name), None)
        invariant store == old(store).(entries := Cleared(old(store).entries, l.types[..k], l.name))
      {
        ghost var before := log;
        ghost var entries := store.entries;
        err := ClearOne(l.types[k], l.name);
        ClearStep(answer, old(log), before, log, l.types, k, l.name, err, old(store).entries, entries);
        if err.Some? {
          return;
        }
      }
      assert l.types[..|l.types|] == l.types;
      OutcomeNone(answer, |old(log)|, RemoveAlls(l.types, l.name));
      FirstFaultAt(answer, |old(log)|, |l.types|, |l.types|);
      return None;
    }

    /** `RemoveList`: the list's entries are cleared first; only if that
        succeeds is its first registry document removed, and a registry
        without one gives `NotFound`. */
    method RemoveList(l: Metadata) returns (err: Option<Error>)
      modifies this
      ensures var k := FirstFault(answer, |old(log)|, |l.types|);
              store.entries == Cleared(old(store).entries, l.types[..k], l.name) && store.collections == old(store).collections
      ensures var plan := RemoveAlls(l.types, l.name) + [Remove(l.name)];
              var at := FirstNamed(old(store).lists, l.name);
              var outcome := Outcome(answer, |old(log)|, plan);
              && log == old(log) + Made(answer, |old(log)|, plan)
              && (outcome.Some? ==> err == outcome && store.lists == old(store).lists)
              && (outcome.None? && at == |old(store).lists| ==> err == Some(NotFound) && store.lists == old(store).lists)
              && (outcome.None? && at < |old(store).lists| ==> err.None? && store.lists == old(store).lists[..at] + old(store).lists[at + 1..])
    {
      err := ClearCache(l);
      if err.Some? {
        TriedStop(answer, old(log), log, RemoveAlls(l.types, l.name), [Remove(l.name)], err.value);
        return;
      }
      ghost var mid := log;
      err := Perform(Remove(l.name));
      TriedOne(answer, mid, Remove(l.name));
      TriedThen(answer, old(log), mid, log, RemoveAlls(l.types, l.name), [Remove(l.name)], err);
      if err.Some? {
        return;
      }
      var at := FirstNamed(store.lists, l.name);
      if at == |store.lists| {
        return Some(NotFound);
      }
      store := store.(lists := store.lists[..at] + store.lists[at + 1..]);
    }

    /** `UpdateListMetadata`: replaces the first registry document with the
        same name. */
    method UpdateListMetadata(l: Metadata) returns (err: Option<Error>)
      modifies this
      ensures log == old(log) + [Update(l)] && store.entries == old(store).entries && store.collections == old(store).collections
      ensures var at := FirstNamed(old(store).lists, l.name);
              && (answer(|old(log)|).Some? ==> err == answer(|old(log)|) && store.lists == old(store).lists)
              && (answer(|old(log)|).None? && at == |old(store).lists| ==> err == Some(NotFound) && store.lists == old(store).lists)
              && (answer(|old(log)|).None? && at < |old(store).lists| ==> err.None? && store.lists == old(store).lists[at := l])
    {
      err := Perform(Update(l));
      if err.Some? {
        return;
      }
      var at := FirstNamed(store.lists, l.name);
      if at == |store.lists| {
        return Some(NotFound);
      }
      store := store.(lists := store.lists[at := l]);
    }

    /** `InsertEntries`: the documents of the stream are run in bulks of
        `BuffSize`, the last one shorter and never empty; each failed run is
        reported and the stream is drained all the same; `wg.Done` comes
        after the stream is exhausted. */
    method InsertEntries(entryType: EntryType, entries: seq<BlacklistedEntry>, wg: WaitGroup, errorsOut: Chan<Error>)
      requires wg.count > 0 && !errorsOut.closed
      modifies this, wg, errorsOut
      ensures Drained(answer, entryType, Chunks(Documents(entries)), old(log), log, old(errorsOut.items), errorsOut.items, old(store), store)
      ensures !errorsOut.closed && wg.count == old(wg.count) - 1
    {
      var i := 0;
      var bulk: seq<BlacklistResult> := [];
      for n := 0 to |entries|
        invariant Pumped(answer, entryType, Documents(entries[..n]), bulk, old(log), log, old(errorsOut.items), errorsOut.items, old(store), store)
        invariant !errorsOut.closed
        invariant i == |bulk| && wg.count == old(wg.count)
      {
        bulk, i := Absorb(entryType, entries, n, bulk, i, errorsOut, old(store), old(log), old(errorsOut.items));
      }
      Flush(entryType, entries, bulk, i, errorsOut, old(store), old(log), old(errorsOut.items));
      wg.Done();
    }

    /** The end of `InsertEntries`: a non-empty last bulk is run. */
    method Flush(entryType: EntryType, entries: seq<BlacklistedEntry>, bulk: seq<BlacklistResult>, i: nat, errorsOut: Chan<Error>,
                 ghost store0: Store, ghost log0: seq<Call>, ghost errors0: seq<Error>)
      requires Pumped(answer, entryType, Documents(entries[..|entries|]), bulk, log0, log, errors0, errorsOut.items, store0, store) && i == |bulk|
      requires !errorsOut.closed
      modifies this, errorsOut
      ensures Drained(answer, entryType, Chunks(Documents(entries)), log0, log, errors0, errorsOut.items, store0, store)
      ensures !errorsOut.closed
    {
      assert entries[..|entries|] == entries;
      ghost var docs := Documents(entries);
      BatchesChunks(docs);
      ghost var b := Batch(docs);
      if i != 0 {
        ghost var log1, errors1, store1 := log, errorsOut.items, store;
        RunBulk(entryType, bulk, errorsOut);
        DrainedSnoc(answer, entryType, b.full, bulk, log0, log1, log, errors0, errors1, errorsOut.items, store0, store1, store);
      } else {
        assert Batches(docs) == b.full;
      }
    }

    /** The loop body of `InsertEntries`: one more document in the bulk, and
        the bulk run once it is full. */
    method Absorb(entryType: EntryType, entries: seq<BlacklistedEntry>, n: nat,
                  bulk: seq<BlacklistResult>, i: nat, errorsOut: Chan<Error>, ghost store0: Store, ghost log0: seq<Call>, ghost errors0: seq<Error>)
      returns (bulk': seq<BlacklistResult>, i': nat)
      requires n < |entries|
      requires Pumped(answer, entryType, Documents(entries[..n]), bulk, log0, log, errors0, errorsOut.items, store0, store) && i == |bulk|
      requires !errorsOut.closed
      modifies this, errorsOut
      ensures Pumped(answer, entryType, Documents(entries[..n + 1]), bulk', log0, log, errors0, errorsOut.items, store0, store) && i' == |bulk'|
      ensures !errorsOut.closed
    {
      var entry := entries[n];
      ghost var seen := Documents(entries[..n]);
      DocumentsSnoc(entries, n);
      ghost var b := Batch(seen);
      BatchSnoc(seen, ToResult(entry));
      bulk' := bulk + [BlacklistResult(entry.index, entry.source, entry.extraData)];
      i' := i + 1;
      if i' == BuffSize {
        ghost var log1, errors1, store1 := log, errorsOut.items, store;
        RunBulk(entryType, bulk', errorsOut);
        DrainedSnoc(answer, entryType, b.full, bulk', log0, log1, log, errors0, errors1, errorsOut.items, store0, store1, store);
        i' := 0;
        bulk' := [];
      }
    }

    /** `bulk.Run()`: on success the documents are stored; an error is
        reported. */
    method RunBulk(entryType: EntryType, bulk: seq<BlacklistResult>, errorsOut: Chan<Error>)
      requires !errorsOut.closed
      modifies this, errorsOut
      ensures log == old(log) + [BulkRun(entryType, bulk)] && !errorsOut.closed
      ensures errorsOut.items == old(errorsOut.items) + if answer(|old(log)|).Some? then [answer(|old(log)|).value] else []
      ensures Appended(old(store), store, entryType, if answer(|old(log)|).None? then bulk else [])
    {
      var err := Perform(BulkRun(entryType, bulk));
      if err.Some? {
        errorsOut.Send(err.value);
      } else {
        store := store.(entries := store.entries[entryType := Docs(store.entries, entryType) + bulk]);
      }
    }

    /** `FindEntries`: the documents with the given index in the type's
        collection, or the query's error. */
    method FindEntries(dataType: EntryType, index: string) returns (r: Result<seq<BlacklistResult>, Error>)
      modifies this
      ensures log == old(log) + [Find(dataType, index)] && store == old(store)
      ensures answer(|old(log)|).Some? ==> r == Failure(answer(|old(log)|).value)
      ensures answer(|old(log)|).None? ==> r == Success(Matching(Docs(store.entries, dataType), index))
    {
      var err := Perform(Find(dataType, index));
      if err.Some? {
        return Failure(err.value);
      }
      return Success(Matching(Docs(store.entries, dataType), index));
    }
  }
}
