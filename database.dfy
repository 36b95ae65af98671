/** database/database.go (the older API): the `DBEntry` record and the
    `Handle` interface, here realised by an in-memory store. The store keeps
    the registry of lists and the table of cached entries, records every
    state-changing call in order, and fails exactly those calls its `fault`
    function names, which stands for whatever the backing database does. */
module Database {
  import opened Base
  import opened ListEntry
  import opened Streams
  import opened ListPipeline

  /** `DBEntry`: the database form of an entry. */
  datatype DBEntry = DBEntry(index: string, list: string, extraData: map<string, Extra>)

  /** A cached entry together with the type of the list it came from. */
  datatype Row = Row(ltype: BlacklistedType, entry: DBEntry)

  /** The state-changing calls of `Handle`, as recorded in the store's log. */
  datatype Call =
    | GetLists
    | RemoveCall(name: string)
    | RegisterCall(meta: Metadata)
    | InsertCall(ltype: BlacklistedType, entries: seq<BlacklistedEntry>)

  /** The database form of a batch of entries. */
  function ToRows(t: BlacklistedType, es: seq<BlacklistedEntry>): (r: seq<Row>)
    ensures |r| == |es|
    ensures forall i :: 0 <= i < |r| ==> r[i] == Row(t, DBEntry(es[i].index, es[i].source, es[i].extraData))
  {
    if |es| == 0 then [] else ToRows(t, es[..|es| - 1]) + [Row(t, DBEntry(es[|es| - 1].index, es[|es| - 1].source, es[|es| - 1].extraData))]
  }

  /** The registry without the lists of a given name. */
  function Unregister(registry: seq<Metadata>, name: string): (r: seq<Metadata>)
    ensures forall m :: m in r <==> m in registry && m.name != name
  {
    if |registry| == 0 then []
    else
      var m := registry[|registry| - 1];
      Unregister(registry[..|registry| - 1], name) + (if m.name == name then [] else [m])
  }

  /** The cached entries that do not come from a given list. */
  function Uncache(rows: seq<Row>, name: string): (r: seq<Row>)
    ensures forall i :: 0 <= i < |r| ==> r[i] in rows && r[i].entry.list != name
    ensures forall i :: 0 <= i < |rows| && rows[i].entry.list != name ==> rows[i] in r
  {
    if |rows| == 0 then []
    else
      var w := rows[|rows| - 1];
      Uncache(rows[..|rows| - 1], name) + (if w.entry.list == name then [] else [w])
  }

  /** The cached entries of a type with a given index, in table order. */
  function Matching(rows: seq<Row>, t: BlacklistedType, index: string): (r: seq<DBEntry>)
    ensures forall e :: e in r <==> Row(t, e) in rows && e.index == index
  {
    if |rows| == 0 then []
    else
      var w := rows[|rows| - 1];
      Matching(rows[..|rows| - 1], t, index) + (if w.ltype == t && w.entry.index == index then [w.entry] else [])
  }

  /** What the store holds: the registered lists and the cached entries. */
  datatype StoreState = StoreState(registry: seq<Metadata>, rows: seq<Row>)

  /** The effect of one call on the stored data, given how the database
      answers it: a failed call changes nothing. */
  function Effect(fault: Call -> Option<Error>, st: StoreState, c: Call): (r: StoreState)
    ensures fault(c).Some? || c.GetLists? ==> r == st
  {
    if fault(c).Some? then st
    else match c
      case GetLists => st
      case RemoveCall(name) => StoreState(Unregister(st.registry, name), Uncache(st.rows, name))
      case RegisterCall(meta) => st.(registry := st.registry + [meta])
      case InsertCall(t, entries) => st.(rows := st.rows + ToRows(t, entries))
  }

  /** The stored data after a sequence of calls. */
  function Replay(fault: Call -> Option<Error>, st: StoreState, calls: seq<Call>): StoreState
  {
    if |calls| == 0 then st else Effect(fault, Replay(fault, st, calls[..|calls| - 1]), calls[|calls| - 1])
  }

  /** Replaying two call sequences one after the other is replaying their
      concatenation. */
  lemma {:induction false} ReplayConcat(fault: Call -> Option<Error>, st: StoreState, a: seq<Call>, b: seq<Call>)
    ensures Replay(fault, st, a + b) == Replay(fault, Replay(fault, st, a), b)
    decreases |b|
  {
    if |b| == 0 {
      assert a + b == a;
    } else {
      assert (a + b)[..|a + b| - 1] == a + b[..|b| - 1];
      ReplayConcat(fault, st, a, b[..|b| - 1]);
    }
  }

  class Store {
    var registry: seq<Metadata>
    var rows: seq<Row>
    /** Every call made so far, in order. */
    var log: seq<Call>
    /** What the database held when the handle was opened. */
    ghost const initial: StoreState
    /** The error the backing database answers a call with, if any. */
    const fault: Call -> Option<Error>
    /** Whether a lookup of an index of a type fails. */
    const findFault: (BlacklistedType, string) -> Option<Error>

    function State(): StoreState
      reads this
    {
      StoreState(registry, rows)
    }

    /** The stored data is what the logged calls made of the initial data. */
    ghost predicate Valid()
      reads this
    {
      State() == Replay(fault, initial, log)
    }

    constructor (registry0: seq<Metadata>, rows0: seq<Row>,
                 fault: Call -> Option<Error>, findFault: (BlacklistedType, string) -> Option<Error>)
      ensures Valid() && log == []
      ensures registry == registry0 && rows == rows0
      ensures this.fault == fault && this.findFault == findFault
    {
      registry := registry0;
      rows := rows0;
      log := [];
      initial := StoreState(registry0, rows0);
      this.fault := fault;
      this.findFault := findFault;
    }

    /** Logs a call and applies its effect. */
    method Perform(c: Call)
      requires Valid()
      modifies this`log, this`registry, this`rows
      ensures Valid() && log == old(log) + [c]
      ensures State() == Effect(fault, old(State()), c)
    {
      assert (log + [c])[..|log|] == log;
      var st := Effect(fault, State(), c);
      registry, rows := st.registry, st.rows;
      log := log + [c];
    }

    /** `GetRegisteredLists()`. */
    method GetRegisteredLists() returns (r: Result<seq<Metadata>, Error>)
      requires Valid()
      modifies this`log, this`registry, this`rows
      ensures Valid() && log == old(log) + [GetLists] && State() == old(State())
      ensures r == if fault(GetLists).Some? then Failure(fault(GetLists).value) else Success(registry)
    {
      Perform(GetLists);
      if fault(GetLists).Some? {
        r := Failure(fault(GetLists).value);
      } else {
        r := Success(registry);
      }
    }

    /** `RemoveList(l)`: drops the list's registration and its cached
        entries, unless the database fails the call. */
    method RemoveList(l: List) returns (err: Option<Error>)
      requires Valid()
      modifies this`log, this`registry, this`rows
      ensures Valid() && log == old(log) + [RemoveCall(l.meta.name)]
      ensures err == fault(RemoveCall(l.meta.name))
      ensures err.None? ==> registry == Unregister(old(registry), l.meta.name) && rows == Uncache(old(rows), l.meta.name)
      ensures err.Some? ==> State() == old(State())
    {
      Perform(RemoveCall(l.meta.name));
      err := fault(RemoveCall(l.meta.name));
    }

    /** `RegisterList(l)`: records the list's current metadata. */
    method RegisterList(l: List) returns (err: Option<Error>)
      requires Valid()
      modifies this`log, this`registry, this`rows
      ensures Valid() && log == old(log) + [RegisterCall(l.meta)]
      ensures err == fault(RegisterCall(l.meta))
      ensures registry == (if err.None? then old(registry) + [l.meta] else old(registry)) && rows == old(rows)
    {
      Perform(RegisterCall(l.meta));
      err := fault(RegisterCall(l.meta));
    }

    /** `InsertEntries(entries, errorsOut)`: drains the channel's contents
        into the table (the entries' own list gives their type); a failure
        is reported on `errorsOut`. */
    method InsertEntries(t: BlacklistedType, entries: seq<BlacklistedEntry>, errorsOut: Chan<Option<Error>>)
      requires Valid() && !errorsOut.closed
      modifies this`log, this`registry, this`rows, errorsOut
      ensures Valid() && log == old(log) + [InsertCall(t, entries)] && registry == old(registry)
      ensures fault(InsertCall(t, entries)).None? ==> rows == old(rows) + ToRows(t, entries) && errorsOut.items == old(errorsOut.items)
      ensures fault(InsertCall(t, entries)).Some? ==> rows == old(rows) && errorsOut.items == old(errorsOut.items) + [fault(InsertCall(t, entries))]
      ensures !errorsOut.closed
    {
      Perform(InsertCall(t, entries));
      if fault(InsertCall(t, entries)).Some? {
        errorsOut.Send(fault(InsertCall(t, entries)));
      }
    }

    /** `FindEntries(dataType, index)`: the cached entries of that type and
        index, or the database's error. */
    function FindEntries(dataType: BlacklistedType, index: string): (r: Result<seq<DBEntry>, Error>)
      reads this
      ensures findFault(dataType, index).Some? <==> r.Failure?
      ensures r.Success? ==> forall e :: e in r.value <==> Row(dataType, e) in rows && e.index == index
    {
      if findFault(dataType, index).Some? then Failure(findFault(dataType, index).value)
      else Success(Matching(rows, dataType, index))
    }
  }
}
