/** database/clickhouse.go: the ClickHouse storage driver. The server is an
    abstract database of tables; every call the driver makes is logged and
    answered by the `answer` oracle of the handle (see module Storage). The
    effect of a successful call is applied to the store where the server
    would apply it; a failed call changes nothing. Rows appended to a batch
    stay on the client until the batch is sent. */
module ClickHouse {
  import opened Base
  import opened ListEntry
  import opened Streams
  import opened Feeds
  import opened Storage

  /** `chListTable`. */
  const ListTable: string := "Lists"

  /** The statements the driver runs. Their SQL text lives in embedded files
      that are not part of this model, so a statement is named by the file
      or template it is rendered from. */
  datatype Statement =
    | SelectLists                                 // select/lists.sql
    | CreateListsTable                            // create_table/lists.sql
    | CreateEntryTable(entryType: EntryType)      // create_table/templates/entries.sql
    | SelectEntriesByIndex(entryType: EntryType)  // select/templates/entries_by_index.sql

  /** `chCreateEntryTableQuery`: the create-table template for a type. */
  function CreateEntryTableQuery(entryType: EntryType): Statement
  {
    CreateEntryTable(entryType)
  }

  /** `chSelectEntriesByIndexQuery` as written: it executes the create-table
      template, not the select template it parses. */
  function SelectEntriesByIndexQuery(entryType: EntryType): (q: Statement)
    ensures q == CreateEntryTableQuery(entryType) && q != SelectEntriesByIndex(entryType)
  {
    CreateEntryTable(entryType)
  }

  /** `chSelectEntriesByIndexQuery` as evidently intended. */
  function SelectEntriesByIndexQueryIntended(entryType: EntryType): (q: Statement)
    ensures q.SelectEntriesByIndex? && q.entryType == entryType
  {
    SelectEntriesByIndex(entryType)
  }

  /** The server calls the driver makes. */
  datatype Call =
    | Exec(statement: Statement)
    | DeleteEntries(table: string, list: string)   // DELETE FROM <type> WHERE List=@name
    | DeleteList(name: string)                     // DELETE FROM Lists WHERE Name=@name
    | Query(statement: Statement, index: Option<string>)
    | Scan(position: nat)
    | PrepareBatch(table: string)
    | Append(table: string, row: BlacklistResult)
    | AppendList(meta: Metadata)
    | Send(table: string)

  /** The database: the existing tables, the rows of the lists table, and
      the rows of each entry type's table. */
  datatype Store = Store(tables: set<string>, lists: seq<Metadata>, entries: map<string, seq<BlacklistResult>>)

  /** The rows of the lists table that do not have the given name. */
  function Unnamed(lists: seq<Metadata>, name: string): (r: seq<Metadata>)
    ensures forall m :: m in r <==> m in lists && m.name != name
  {
    if |lists| == 0 then []
    else Unnamed(lists[..|lists| - 1], name) + if lists[|lists| - 1].name == name then [] else [lists[|lists| - 1]]
  }

  /** Inserting a row into the lists table, a ReplacingMergeTree keyed by
      name, seen once merged: the new row replaces the rows of that name. */
  function Upsert(lists: seq<Metadata>, l: Metadata): (r: seq<Metadata>)
    ensures forall m :: m in r <==> m == l || (m in lists && m.name != l.name)
    ensures forall m :: m in r && m.name == l.name ==> m == l
  {
    Unnamed(lists, l.name) + [l]
  }

  /** The members of a sequence. */
  function Elems(s: seq<string>): (r: set<string>)
    ensures forall x :: x in r <==> x in s
  {
    if |s| == 0 then {} else Elems(s[..|s| - 1]) + {s[|s| - 1]}
  }

  /** The create statements `RegisterList` runs for the entry types. */
  function CreateTables(types: seq<EntryType>): (r: seq<Call>)
    ensures |r| == |types| && forall k :: 0 <= k < |types| ==> r[k] == Exec(CreateEntryTableQuery(types[k]))
  {
    seq(|types|, k requires 0 <= k < |types| => Exec(CreateEntryTableQuery(types[k])))
  }

  /** The batch that inserts one row into the lists table. */
  function InsertListPlan(l: Metadata): seq<Call>
  {
    [PrepareBatch(ListTable), AppendList(l), Send(ListTable)]
  }

  /** The calls of `RegisterList` when none fails: the lists table, the
      type tables, then the insert of the metadata. */
  function RegisterPlan(l: Metadata): seq<Call>
  {
    [Exec(CreateListsTable)] + (CreateTables(l.types) + InsertListPlan(l))
  }

  /** The deletes of `ClearCache` when none fails, one per type. */
  function Deletes(types: seq<EntryType>, name: string): (r: seq<Call>)
    ensures |r| == |types| && forall k :: 0 <= k < |types| ==> r[k] == DeleteEntries(types[k], name)
  {
    seq(|types|, k requires 0 <= k < |types| => DeleteEntries(types[k], name))
  }

  /** The scans of the rows of a query result, in order. */
  function Scans(n: nat): (r: seq<Call>)
    ensures |r| == n && forall k :: 0 <= k < n ==> r[k] == Scan(k)
  {
    seq(n, k requires 0 <= k < n => Scan(k))
  }

  /** The state of an `InsertEntries` run: the calls made, the errors
      reported, the rows committed by successful sends, the open batch
      (`None` after a failed `PrepareBatch`, when `bulk` is nil) and whether
      the goroutine has panicked, which ends it. */
  datatype Run = Run(log: seq<Call>, errors: seq<Error>, rows: seq<BlacklistResult>, batch: Option<seq<BlacklistResult>>, panicked: bool)

  /** A run before its first call. */
  const Fresh: Run := Run([], [], [], None, false)

  /** `if err != nil { errorsOut <- err }`. */
  function Reported(errors: seq<Error>, e: Option<Error>): seq<Error>
  {
    errors + if e.Some? then [e.value] else []
  }

  /** `bulk, err = PrepareBatch(...)`: a fresh batch, or nil and the error
      reported. */
  function Prepared(answer: nat -> Option<Error>, pos: nat, t: EntryType, r: Run): Run
  {
    if r.panicked then r
    else
      var e := answer(pos + |r.log|);
      r.(log := r.log + [PrepareBatch(t)], errors := Reported(r.errors, e), batch := if e.None? then Some([]) else None)
  }

  /** `bulk.Append(...)` for one row: on a nil batch the call panics; a
      failed append is reported and leaves the row out of the batch. */
  function Appended(answer: nat -> Option<Error>, pos: nat, t: EntryType, r: Run, d: BlacklistResult): Run
  {
    if r.panicked then r
    else if r.batch.None? then r.(panicked := true)
    else
      var e := answer(pos + |r.log|);
      r.(log := r.log + [Append(t, d)], errors := Reported(r.errors, e), batch := if e.None? then Some(r.batch.value + [d]) else r.batch)
  }

  /** `bulk.Send()`: on success the batch's rows are committed; an error is
      reported. A nil batch panics. */
  function Sent(answer: nat -> Option<Error>, pos: nat, t: EntryType, r: Run): Run
  {
    if r.panicked then r
    else if r.batch.None? then r.(panicked := true)
    else
      var e := answer(pos + |r.log|);
      r.(log := r.log + [Send(t)], errors := Reported(r.errors, e), rows := r.rows + if e.None? then r.batch.value else [])
  }

  function AppendedAll(answer: nat -> Option<Error>, pos: nat, t: EntryType, r: Run, ds: seq<BlacklistResult>): Run
    decreases |ds|
  {
    if |ds| == 0 then r else Appended(answer, pos, t, AppendedAll(answer, pos, t, r, ds[..|ds| - 1]), ds[|ds| - 1])
  }

  /** The first batch, then for each completed batch its appends, its send
      and the next batch. */
  function Rounds(answer: nat -> Option<Error>, pos: nat, t: EntryType, full: seq<seq<BlacklistResult>>): Run
    decreases |full|
  {
    if |full| == 0 then Prepared(answer, pos, t, Fresh)
    else
      var r := AppendedAll(answer, pos, t, Rounds(answer, pos, t, full[..|full| - 1]), full[|full| - 1]);
      Prepared(answer, pos, t, Sent(answer, pos, t, r))
  }

  /** The run after the rows `seen`: the completed batches, then the
      appends of the pending rows. */
  function Pumped(answer: nat -> Option<Error>, pos: nat, t: EntryType, seen: seq<BlacklistResult>): Run
  {
    AppendedAll(answer, pos, t, Rounds(answer, pos, t, Batch(seen).full), Batch(seen).pending)
  }

  /** The whole run of `InsertEntries` over the rows `docs`, with its calls
      issued from position `pos` on: a non-empty last batch is sent. */
  function Inserted(answer: nat -> Option<Error>, pos: nat, t: EntryType, docs: seq<BlacklistResult>): Run
  {
    var r := Pumped(answer, pos, t, docs);
    if |Batch(docs).pending| == 0 then r else Sent(answer, pos, t, r)
  }

  /** One more row: it is appended, and a batch that becomes full is sent
      and replaced. */
  lemma PumpedSnoc(answer: nat -> Option<Error>, pos: nat, t: EntryType, seen: seq<BlacklistResult>, d: BlacklistResult)
    ensures var r := Appended(answer, pos, t, Pumped(answer, pos, t, seen), d);
            Pumped(answer, pos, t, seen + [d]) == if |Batch(seen).pending| + 1 == BuffSize then Prepared(answer, pos, t, Sent(answer, pos, t, r)) else r
  {
    BatchSnoc(seen, d);
    var b := Batch(seen);
    var p := b.pending + [d];
    assert p[..|p| - 1] == b.pending;
    if |p| == BuffSize {
      var full := b.full + [p];
      assert full[..|full| - 1] == b.full;
    }
  }

  /** A panicked run makes no more calls. */
  lemma {:induction false} PanicSticks(answer: nat -> Option<Error>, pos: nat, t: EntryType, entries: seq<BlacklistedEntry>, n: nat)
    requires n <= |entries| && Pumped(answer, pos, t, Documents(entries[..n])).panicked
    ensures Pumped(answer, pos, t, Documents(entries)) == Pumped(answer, pos, t, Documents(entries[..n]))
    ensures Inserted(answer, pos, t, Documents(entries)) == Pumped(answer, pos, t, Documents(entries[..n]))
    decreases |entries| - n
  {
    if n < |entries| {
      DocumentsSnoc(entries, n);
      PumpedSnoc(answer, pos, t, Documents(entries[..n]), ToResult(entries[n]));
      PanicSticks(answer, pos, t, entries, n + 1);
    } else {
      assert entries[..n] == entries;
    }
  }

  /** The calls `InsertEntries` makes over the rows `seen` when none of
      them faults: the first `PrepareBatch`, then per row its `Append`, with
      a `Send` and a new `PrepareBatch` after every `BuffSize`-th row. */
  function PumpedPlan(t: EntryType, seen: seq<BlacklistResult>): (r: seq<Call>)
    ensures |r| > 0 && r[0] == PrepareBatch(t)
    decreases |seen|
  {
    if |seen| == 0 then [PrepareBatch(t)]
    else
      var steps := PumpedPlan(t, seen[..|seen| - 1]) + [Append(t, seen[|seen| - 1])];
      if |Batch(seen).pending| == 0 then steps + [Send(t), PrepareBatch(t)] else steps
  }

  /** The calls of a whole `InsertEntries` run when none faults: the
      pending rows, if any, are sent at the end. */
  function InsertPlan(t: EntryType, docs: seq<BlacklistResult>): seq<Call>
  {
    PumpedPlan(t, docs) + if |Batch(docs).pending| == 0 then [] else [Send(t)]
  }

  /** What a run has done so far agrees with the plan `plan`: every error
      reported is the fault of one of its calls, in order, and no other;
      its calls are the plan's first calls; unless it has panicked it has
      made all of them; and a run only lacks a batch, and only panics,
      right after a `PrepareBatch` that failed. */
  ghost predicate Follows(answer: nat -> Option<Error>, pos: nat, t: EntryType, r: Run, plan: seq<Call>)
  {
    && r.errors == Faults(answer, pos, pos + |r.log|)
    && |r.log| <= |plan| && plan[..|r.log|] == r.log
    && (!r.panicked ==> r.log == plan)
    && (r.panicked ==> r.batch.None?)
    && (r.batch.None? ==> |r.log| > 0 && r.log[|r.log| - 1] == PrepareBatch(t) && answer(pos + |r.log| - 1).Some?)
  }

  lemma PreparedFollows(answer: nat -> Option<Error>, pos: nat, t: EntryType, r: Run, plan: seq<Call>)
    requires Follows(answer, pos, t, r, plan)
    ensures Follows(answer, pos, t, Prepared(answer, pos, t, r), plan + [PrepareBatch(t)])
  {
    var c := PrepareBatch(t);
    assert (plan + [c])[..|r.log|] == plan[..|r.log|];
    if !r.panicked {
      assert Faults(answer, pos, pos + |r.log| + 1) == Faults(answer, pos, pos + |r.log|) + if answer(pos + |r.log|).Some? then [answer(pos + |r.log|).value] else [];
    }
  }

  lemma AppendedFollows(answer: nat -> Option<Error>, pos: nat, t: EntryType, r: Run, plan: seq<Call>, d: BlacklistResult)
    requires Follows(answer, pos, t, r, plan)
    ensures Follows(answer, pos, t, Appended(answer, pos, t, r, d), plan + [Append(t, d)])
  {
    var c := Append(t, d);
    assert (plan + [c])[..|r.log|] == plan[..|r.log|];
    if !r.panicked && r.batch.Some? {
      assert Faults(answer, pos, pos + |r.log| + 1) == Faults(answer, pos, pos + |r.log|) + if answer(pos + |r.log|).Some? then [answer(pos + |r.log|).value] else [];
    }
  }

  lemma SentFollows(answer: nat -> Option<Error>, pos: nat, t: EntryType, r: Run, plan: seq<Call>)
    requires Follows(answer, pos, t, r, plan)
    ensures Follows(answer, pos, t, Sent(answer, pos, t, r), plan + [Send(t)])
  {
    var c := Send(t);
    assert (plan + [c])[..|r.log|] == plan[..|r.log|];
    if !r.panicked && r.batch.Some? {
      assert Faults(answer, pos, pos + |r.log| + 1) == Faults(answer, pos, pos + |r.log|) + if answer(pos + |r.log|).Some? then [answer(pos + |r.log|).value] else [];
    }
  }

  /** One more row keeps a run on its plan. */
  lemma FollowsSnoc(answer: nat -> Option<Error>, pos: nat, t: EntryType, r: Run, plan: seq<Call>, d: BlacklistResult, full: bool)
    requires Follows(answer, pos, t, r, plan)
    ensures var r1 := Appended(answer, pos, t, r, d);
            var p1 := plan + [Append(t, d)];
            Follows(answer, pos, t, if full then Prepared(answer, pos, t, Sent(answer, pos, t, r1)) else r1, if full then p1 + [Send(t), PrepareBatch(t)] else p1)
  {
    var r1 := Appended(answer, pos, t, r, d);
    var p1 := plan + [Append(t, d)];
    AppendedFollows(answer, pos, t, r, plan, d);
    if full {
      SentFollows(answer, pos, t, r1, p1);
      PreparedFollows(answer, pos, t, Sent(answer, pos, t, r1), p1 + [Send(t)]);
      SeqAssoc(p1, [Send(t)], [PrepareBatch(t)]);
    }
  }

  lemma {:induction false} PumpedFollows(answer: nat -> Option<Error>, pos: nat, t: EntryType, seen: seq<BlacklistResult>)
    ensures Follows(answer, pos, t, Pumped(answer, pos, t, seen), PumpedPlan(t, seen))
    decreases |seen|
  {
    if |seen| == 0 {
      assert Pumped(answer, pos, t, seen) == Prepared(answer, pos, t, Fresh);
      assert Faults(answer, pos, pos + 1) == Faults(answer, pos, pos) + if answer(pos).Some? then [answer(pos).value] else [];
    } else {
      var init, d := seen[..|seen| - 1], seen[|seen| - 1];
      assert init + [d] == seen;
      PumpedFollows(answer, pos, t, init);
      PumpedSnoc(answer, pos, t, init, d);
      BatchSnoc(init, d);
      FollowsSnoc(answer, pos, t, Pumped(answer, pos, t, init), PumpedPlan(t, init), d, |Batch(init).pending| + 1 == BuffSize);
    }
  }

  /** Any run of `InsertEntries`, whatever the database answers, follows
      its plan: the errors it reports are exactly the faults of the calls it
      made; those calls are the first calls of the plan, all of them unless
      it panicked, and it only panics on the first `Append` after a
      `PrepareBatch` that failed. */
  lemma InsertedFollows(answer: nat -> Option<Error>, pos: nat, t: EntryType, docs: seq<BlacklistResult>)
    ensures Follows(answer, pos, t, Inserted(answer, pos, t, docs), InsertPlan(t, docs))
  {
    PumpedFollows(answer, pos, t, docs);
    if |Batch(docs).pending| != 0 {
      SentFollows(answer, pos, t, Pumped(answer, pos, t, docs), PumpedPlan(t, docs));
    } else {
      assert InsertPlan(t, docs) == PumpedPlan(t, docs);
    }
  }

  /** With no call faulting, the rows seen so far are committed batch by
      batch and the rest sit in the open batch. */
  lemma {:induction false} PumpedOk(answer: nat -> Option<Error>, pos: nat, t: EntryType, seen: seq<BlacklistResult>)
    requires forall k :: pos <= k < pos + |PumpedPlan(t, seen)| ==> answer(k).None?
    ensures Pumped(answer, pos, t, seen) == Run(PumpedPlan(t, seen), [], Flatten(Batch(seen).full), Some(Batch(seen).pending), false)
    decreases |seen|
  {
    if |seen| == 0 {
      assert Pumped(answer, pos, t, seen) == Prepared(answer, pos, t, Fresh);
    } else {
      var init, d := seen[..|seen| - 1], seen[|seen| - 1];
      assert init + [d] == seen;
      PumpedOk(answer, pos, t, init);
      PumpedSnoc(answer, pos, t, init, d);
      BatchSnoc(init, d);
      var b := Batch(init);
      var full := |b.pending| + 1 == BuffSize;
      if full {
        var cut := b.full + [b.pending + [d]];
        assert cut[..|cut| - 1] == b.full;
      }
      OkSnoc(answer, pos, t, PumpedPlan(t, init), Flatten(b.full), b.pending, d, full);
    }
  }

  /** With no fault, one more row is appended to the open batch, and a full
      batch is committed and replaced by an empty one. */
  lemma OkSnoc(answer: nat -> Option<Error>, pos: nat, t: EntryType, plan: seq<Call>, rows: seq<BlacklistResult>,
               pending: seq<BlacklistResult>, d: BlacklistResult, full: bool)
    requires answer(pos + |plan|).None? && (full ==> answer(pos + |plan| + 1).None? && answer(pos + |plan| + 2).None?)
    ensures var r1 := Appended(answer, pos, t, Run(plan, [], rows, Some(pending), false), d);
            var p1 := plan + [Append(t, d)];
            (if full then Prepared(answer, pos, t, Sent(answer, pos, t, r1)) else r1)
            == if full then Run(p1 + [Send(t), PrepareBatch(t)], [], rows + (pending + [d]), Some([]), false) else Run(p1, [], rows, Some(pending + [d]), false)
  {
    var p1 := plan + [Append(t, d)];
    if full {
      SeqAssoc(p1, [Send(t)], [PrepareBatch(t)]);
      assert [Send(t)] + [PrepareBatch(t)] == [Send(t), PrepareBatch(t)];
    }
  }

  /** When no call faults, `InsertEntries` makes exactly the planned calls,
      reports nothing, does not panic, and commits every row of the
      stream, once each, in order. */
  lemma InsertedOk(answer: nat -> Option<Error>, pos: nat, t: EntryType, docs: seq<BlacklistResult>)
    requires forall k :: pos <= k < pos + |InsertPlan(t, docs)| ==> answer(k).None?
    ensures var r := Inserted(answer, pos, t, docs);
            r.log == InsertPlan(t, docs) && r.errors == [] && r.rows == docs && !r.panicked
  {
    PumpedOk(answer, pos, t, docs);
    BatchFlatten(docs);
    if |Batch(docs).pending| != 0 {
      assert answer(pos + |PumpedPlan(t, docs)|).None?;
    }
  }

  /** The rows a list of calls appends, in order. */
  function AppendedRows(calls: seq<Call>): (r: seq<BlacklistResult>)
    ensures |r| <= |calls|
  {
    if |calls| == 0 then []
    else
      var c := calls[|calls| - 1];
      AppendedRows(calls[..|calls| - 1]) + if c.Append? then [c.row] else []
  }

  lemma AppendedRowsSnoc(calls: seq<Call>, c: Call)
    ensures AppendedRows(calls + [c]) == AppendedRows(calls) + if c.Append? then [c.row] else []
  {
    assert (calls + [c])[..|calls|] == calls;
  }

  /** The plan appends every row of the stream, each once, in order. */
  lemma {:induction false} PumpedPlanRows(t: EntryType, seen: seq<BlacklistResult>)
    ensures AppendedRows(PumpedPlan(t, seen)) == seen
    decreases |seen|
  {
    if |seen| > 0 {
      var init, d := seen[..|seen| - 1], seen[|seen| - 1];
      assert init + [d] == seen;
      PumpedPlanRows(t, init);
      var steps := PumpedPlan(t, init) + [Append(t, d)];
      AppendedRowsSnoc(PumpedPlan(t, init), Append(t, d));
      if |Batch(seen).pending| == 0 {
        AppendedRowsRenew(steps, t);
      }
    }
  }

  /** Sending a batch and preparing the next append no row. */
  lemma AppendedRowsRenew(calls: seq<Call>, t: EntryType)
    ensures AppendedRows(calls + [Send(t), PrepareBatch(t)]) == AppendedRows(calls)
  {
    AppendedRowsSnoc(calls, Send(t));
    AppendedRowsSnoc(calls + [Send(t)], PrepareBatch(t));
    SeqAssoc(calls, [Send(t)], [PrepareBatch(t)]);
    assert [Send(t)] + [PrepareBatch(t)] == [Send(t), PrepareBatch(t)];
  }

  /** The plan ends with a `PrepareBatch` when no rows are pending, and
      with the last row's `Append` otherwise. */
  lemma PumpedPlanLast(t: EntryType, seen: seq<BlacklistResult>)
    ensures var p := PumpedPlan(t, seen);
            p[|p| - 1] == if |seen| == 0 || |Batch(seen).pending| == 0 then PrepareBatch(t) else Append(t, seen[|seen| - 1])
  {
  }

  /** The plan sends no batch empty: every `Send` comes right after an
      `Append`. */
  lemma {:induction false} PumpedPlanSends(t: EntryType, seen: seq<BlacklistResult>)
    ensures forall k :: 0 <= k < |PumpedPlan(t, seen)| && PumpedPlan(t, seen)[k] == Send(t) ==> k > 0 && PumpedPlan(t, seen)[k - 1].Append?
    decreases |seen|
  {
    if |seen| > 0 {
      var init := seen[..|seen| - 1];
      PumpedPlanSends(t, init);
      var p0 := PumpedPlan(t, init);
      var p := PumpedPlan(t, seen);
      var full := |Batch(seen).pending| == 0;
      assert p == p0 + [Append(t, seen[|seen| - 1])] + (if full then [Send(t), PrepareBatch(t)] else []);
      assert p[|p0|] == Append(t, seen[|seen| - 1]);
      forall k | 0 <= k < |p| && p[k] == Send(t) ensures k > 0 && p[k - 1].Append? {
        if k < |p0| {
          assert p0[k] == p[k] && p0[k - 1] == p[k - 1];
        } else if k > |p0| {
          assert full && k == |p0| + 1;
        }
      }
    }
  }

  /** The same for the whole plan, with its last `Send`. */
  lemma InsertPlanShape(t: EntryType, docs: seq<BlacklistResult>)
    ensures AppendedRows(InsertPlan(t, docs)) == docs
    ensures var p := InsertPlan(t, docs);
            forall k :: 0 <= k < |p| && p[k] == Send(t) ==> k > 0 && p[k - 1].Append?
  {
    PumpedPlanRows(t, docs);
    PumpedPlanSends(t, docs);
    var p0 := PumpedPlan(t, docs);
    if |Batch(docs).pending| != 0 {
      AppendedRowsSnoc(p0, Send(t));
      PumpedPlanLast(t, docs);
      var p := InsertPlan(t, docs);
      forall k | 0 <= k < |p| && p[k] == Send(t) ensures k > 0 && p[k - 1].Append? {
        if k < |p0| {
          assert p0[k] == p[k] && p0[k - 1] == p[k - 1];
        }
      }
    } else {
      assert InsertPlan(t, docs) == p0;
    }
  }

  /** One `Append` per row of a batch. */
  function AppendCalls(t: EntryType, rows: seq<BlacklistResult>): (r: seq<Call>)
    ensures |r| == |rows|
  {
    if |rows| == 0 then [] else AppendCalls(t, rows[..|rows| - 1]) + [Append(t, rows[|rows| - 1])]
  }

  /** The calls for one batch of the reference cut: its appends and its
      send, and a new batch when this one was full. */
  function RoundCalls(t: EntryType, batch: seq<BlacklistResult>): seq<Call>
  {
    AppendCalls(t, batch) + [Send(t)] + if |batch| == BuffSize then [PrepareBatch(t)] else []
  }

  function ChunkPlan(t: EntryType, batches: seq<seq<BlacklistResult>>): seq<Call>
  {
    if |batches| == 0 then [] else ChunkPlan(t, batches[..|batches| - 1]) + RoundCalls(t, batches[|batches| - 1])
  }

  lemma {:induction false} PumpedPlanBatches(t: EntryType, seen: seq<BlacklistResult>)
    ensures PumpedPlan(t, seen) == [PrepareBatch(t)] + ChunkPlan(t, Batch(seen).full) + AppendCalls(t, Batch(seen).pending)
    decreases |seen|
  {
    if |seen| > 0 {
      var init, d := seen[..|seen| - 1], seen[|seen| - 1];
      assert init + [d] == seen;
      PumpedPlanBatches(t, init);
      BatchSnoc(init, d);
      var b := Batch(init);
      var head := [PrepareBatch(t)] + ChunkPlan(t, b.full);
      var p := b.pending + [d];
      assert p[..|p| - 1] == b.pending;
      assert AppendCalls(t, p) == AppendCalls(t, b.pending) + [Append(t, d)];
      SeqAssoc(head, AppendCalls(t, b.pending), [Append(t, d)]);
      if |p| == BuffSize {
        var full := b.full + [p];
        assert full[..|full| - 1] == b.full;
        var steps := head + AppendCalls(t, p);
        SeqAssoc(steps, [Send(t)], [PrepareBatch(t)]);
        SeqAssoc(head, AppendCalls(t, p) + [Send(t)], [PrepareBatch(t)]);
        SeqAssoc(head, AppendCalls(t, p), [Send(t)]);
        assert [Send(t)] + [PrepareBatch(t)] == [Send(t), PrepareBatch(t)];
        assert ChunkPlan(t, full) == ChunkPlan(t, b.full) + RoundCalls(t, p);
        SeqAssoc([PrepareBatch(t)], ChunkPlan(t, b.full), RoundCalls(t, p));
      }
    }
  }

  /** The plan of `InsertEntries` is the plan of the reference cut of the
      stream into batches of `BuffSize` rows: a first `PrepareBatch`, then
      per batch its appends and its send, with a new batch after each full
      one. */
  lemma InsertPlanChunks(t: EntryType, docs: seq<BlacklistResult>)
    ensures InsertPlan(t, docs) == [PrepareBatch(t)] + ChunkPlan(t, Chunks(docs))
  {
    PumpedPlanBatches(t, docs);
    BatchesChunks(docs);
    var b := Batch(docs);
    var head := [PrepareBatch(t)] + ChunkPlan(t, b.full);
    if |b.pending| == 0 {
      assert Batches(docs) == b.full;
      assert AppendCalls(t, b.pending) == [];
      assert InsertPlan(t, docs) == head + [] + [];
    } else {
      var cut := b.full + [b.pending];
      assert Batches(docs) == cut;
      assert cut[..|cut| - 1] == b.full;
      assert RoundCalls(t, b.pending) == AppendCalls(t, b.pending) + [Send(t)] + [];
      SeqAssoc(head, AppendCalls(t, b.pending), [Send(t)]);
      SeqAssoc([PrepareBatch(t)], ChunkPlan(t, b.full), RoundCalls(t, b.pending));
    }
  }

  /** `s` is `s0` with `rows` added at the end of table `t`. */
  ghost predicate Grown(s0: Store, s: Store, t: string, rows: seq<BlacklistResult>)
  {
    && s.tables == s0.tables && s.lists == s0.lists
    && Docs(s.entries, t) == Docs(s0.entries, t) + rows
    && forall c :: c != t ==> Docs(s.entries, c) == Docs(s0.entries, c)
  }

  /** The driver's state is that of run `r`, begun at `log0`, `errors0` and
      `store0`. */
  ghost predicate Tracks(r: Run, t: EntryType, log0: seq<Call>, log: seq<Call>, errors0: seq<Error>, errors: seq<Error>, store0: Store, store: Store)
  {
    log == log0 + r.log && errors == errors0 + r.errors && Grown(store0, store, t, r.rows)
  }

  /** The state of `InsertEntries` after the rows `seen`: the driver tracks
      the run so far, which has not panicked, `bulk` is its batch and `i` the
      number of rows appended to that batch. */
  ghost predicate Looping(answer: nat -> Option<Error>, t: EntryType, seen: seq<BlacklistResult>, bulk: Option<seq<BlacklistResult>>, i: nat,
                          log0: seq<Call>, log: seq<Call>, errors0: seq<Error>, errors: seq<Error>, store0: Store, store: Store)
  {
    var r := Pumped(answer, |log0|, t, seen);
    && Tracks(r, t, log0, log, errors0, errors, store0, store) && !r.panicked && bulk == r.batch
    && i == |Batch(seen).pending| && (i != 0 ==> bulk.Some?)
  }

  /** Appending to the nil batch left by a failed `PrepareBatch` panics,
      and the run ends there with nothing else done. */
  lemma PanicAt(answer: nat -> Option<Error>, pos: nat, t: EntryType, entries: seq<BlacklistedEntry>, n: nat)
    requires n < |entries|
    requires var r := Pumped(answer, pos, t, Documents(entries[..n])); !r.panicked && r.batch.None? && |Batch(Documents(entries[..n])).pending| == 0
    ensures Inserted(answer, pos, t, Documents(entries)) == Pumped(answer, pos, t, Documents(entries[..n])).(panicked := true)
  {
    DocumentsSnoc(entries, n);
    PanicNext(answer, pos, t, Documents(entries[..n]), ToResult(entries[n]));
    PanicSticks(answer, pos, t, entries, n + 1);
  }

  lemma PanicNext(answer: nat -> Option<Error>, pos: nat, t: EntryType, seen: seq<BlacklistResult>, d: BlacklistResult)
    requires var r := Pumped(answer, pos, t, seen); !r.panicked && r.batch.None? && |Batch(seen).pending| == 0
    ensures Pumped(answer, pos, t, seen + [d]) == Pumped(answer, pos, t, seen).(panicked := true)
  {
    PumpedSnoc(answer, pos, t, seen, d);
  }

  /** `clickhouseDB`: a connection to one database. */
  class ClickhouseDB {
    var store: Store
    var log: seq<Call>
    const answer: nat -> Option<Error>

    constructor (initial: Store, answer: nat -> Option<Error>)
      ensures store == initial && log == [] && this.answer == answer
    {
      store := initial;
      log := [];
      this.answer := answer;
    }

    /** One call to the server: logged, answered, no effect by itself. */
    method Perform(c: Call) returns (err: Option<Error>)
      modifies this
      ensures log == old(log) + [c] && err == answer(|old(log)|) && store == old(store)
    {
      err := answer(|log|);
      log := log + [c];
    }

    /** The `rowIter` loops: each row is scanned in turn and the first scan
        that fails ends the loop with its error. */
    method ScanRows<R>(rows: seq<R>) returns (r: Result<seq<R>, Error>)
      modifies this
      ensures Tried(answer, old(log), log, Scans(|rows|), if r.Failure? then Some(r.error) else None)
      ensures r.Success? ==> r.value == rows
      ensures store == old(store)
    {
      ghost var plan := Scans(|rows|);
      var found: seq<R> := [];
      TriedNothing(answer, log);
      assert plan[..0] == [];
      for k := 0 to |rows|
        invariant Tried(answer, old(log), log, plan[..k], None) && found == rows[..k] && store == old(store)
      {
        ghost var before := log;
        var err := Perform(Scan(k));
        TriedStep(answer, old(log), before, log, plan, k);
        if err.Some? {
          return Failure(err.value);
        }
        found := found + [rows[k]];
        assert rows[..k + 1] == rows[..k] + [rows[k]];
      }
      TriedDone(answer, old(log), log, plan);
      assert rows[..|rows|] == rows;
      return Success(found);
    }

    /** `GetRegisteredLists`: a failed query yields no lists and no error;
        otherwise the rows of the lists table, or the error of the first
        row that fails to scan. */
    method GetRegisteredLists() returns (r: Result<seq<Metadata>, Error>)
      modifies this
      ensures store == old(store)
      ensures answer(|old(log)|).Some? ==> r == Success([]) && log == old(log) + [Query(SelectLists, None)]
      ensures answer(|old(log)|).None? ==>
                && Tried(answer, old(log) + [Query(SelectLists, None)], log, Scans(|old(store).lists|), if r.Failure? then Some(r.error) else None)
                && (r.Success? ==> r.value == old(store).lists)
    {
      var err := Perform(Query(SelectLists, None));
      if err.Some? {
        return Success([]);
      }
      r := ScanRows(store.lists);
    }

    /** The batch insert of one row into the lists table, shared by
        `RegisterList` and `UpdateListMetadata`: prepare, append, send,
        stopping at the first error. */
    method InsertList(l: Metadata) returns (err: Option<Error>)
      modifies this
      ensures Tried(answer, old(log), log, InsertListPlan(l), err)
      ensures store == if err.None? then old(store).(lists := Upsert(old(store).lists, l)) else old(store)
    {
      ghost var plan := InsertListPlan(l);
      TriedNothing(answer, log);
      assert plan[..0] == [];
      ghost var before := log;
      err := Perform(PrepareBatch(ListTable));
      TriedStep(answer, old(log), before, log, plan, 0);
      if err.Some? {
        return;
      }
      before := log;
      err := Perform(AppendList(l));
      TriedStep(answer, old(log), before, log, plan, 1);
      if err.Some? {
        return;
      }
      before := log;
      err := Perform(Send(ListTable));
      TriedStep(answer, old(log), before, log, plan, 2);
      if err.Some? {
        return;
      }
      TriedDone(answer, old(log), log, plan);
      store := store.(lists := Upsert(store.lists, l));
    }

    /** The loop of `RegisterList` over the entry types: one create per
        type, stopping at the first error. */
    method CreateEntryTables(types: seq<EntryType>) returns (err: Option<Error>)
      modifies this
      ensures Tried(answer, old(log), log, CreateTables(types), err)
      ensures store == old(store).(tables := old(store).tables + Elems(types[..FirstFault(answer, |old(log)|, |types|)]))
      ensures err.None? ==> forall t :: t in types ==> t in store.tables
    {
      ghost var plan := CreateTables(types);
      TriedNothing(answer, log);
      assert plan[..0] == [];
      for k := 0 to |types|
        invariant Tried(answer, old(log), log, plan[..k], None)
        invariant store == old(store).(tables := old(store).tables + Elems(types[..k]))
      {
        ghost var before := log;
        err := Perform(Exec(CreateEntryTableQuery(types[k])));
        TriedStep(answer, old(log), before, log, plan, k);
        if err.Some? {
          return;
        }
        assert types[..k + 1][..k] == types[..k];
        store := store.(tables := store.tables + {types[k]});
      }
      TriedDone(answer, old(log), log, plan);
      assert types[..|types|] == types;
      return None;
    }

    /** The first statement of `RegisterList`. */
    method CreateListsTableStep() returns (err: Option<Error>)
      modifies this
      ensures Tried(answer, old(log), log, [Exec(CreateListsTable)], err) && err == answer(|old(log)|)
      ensures log == old(log) + [Exec(CreateListsTable)]
      ensures store == old(store).(tables := old(store).tables + if err.None? then {ListTable} else {})
    {
      err := Perform(Exec(CreateListsTable));
      TriedOne(answer, old(log), Exec(CreateListsTable));
      if err.None? {
        store := store.(tables := store.tables + {ListTable});
      }
    }

    /** `RegisterList`: the lists table, then each type's table, then the
        metadata row, returning the first error; the row is inserted only
        once every table has been created. */
    method RegisterList(l: Metadata) returns (err: Option<Error>)
      modifies this
      ensures Tried(answer, old(log), log, RegisterPlan(l), err)
      ensures store.tables == old(store).tables
                + if answer(|old(log)|).Some? then {} else {ListTable} + Elems(l.types[..FirstFault(answer, |old(log)| + 1, |l.types|)])
      ensures err.None? ==> ListTable in store.tables && forall t :: t in l.types ==> t in store.tables
      ensures store.lists == (if err.None? then Upsert(old(store).lists, l) else old(store).lists) && store.entries == old(store).entries
    {
      ghost var rest := CreateTables(l.types) + InsertListPlan(l);
      err := CreateListsTableStep();
      if err.Some? {
        TriedStop(answer, old(log), log, [Exec(CreateListsTable)], rest, err.value);
        return;
      }
      ghost var afterLists := log;
      assert |afterLists| == |old(log)| + 1;
      err := CreateEntryTables(l.types);
      if err.Some? {
        TriedStop(answer, afterLists, log, CreateTables(l.types), InsertListPlan(l), err.value);
        TriedThen(answer, old(log), afterLists, log, [Exec(CreateListsTable)], rest, err);
        return;
      }
      ghost var afterTypes := log;
      err := InsertList(l);
      TriedThen(answer, afterLists, afterTypes, log, CreateTables(l.types), InsertListPlan(l), err);
      TriedThen(answer, old(log), afterLists, log, [Exec(CreateListsTable)], rest, err);
    }

    /** `ClearCache`: deletes the list's rows from each of its types' tables
        in turn, stopping at the first error. */
    method ClearCache(l: Metadata) returns (err: Option<Error>)
      modifies this
      ensures Tried(answer, old(log), log, Deletes(l.types, l.name), err)
      ensures store == old(store).(entries := Cleared(old(store).entries, l.types[..FirstFault(answer, |old(log)|, |l.types|)], l.name))
    {
      ghost var plan := Deletes(l.types, l.name);
      TriedNothing(answer, log);
      assert plan[..0] == [];
      for k := 0 to |l.types|
        invariant Tried(answer, old(log), log, plan[..k], None)
        invariant store == old(store).(entries := Cleared(old(store).entries, l.types[..k], l.name))
      {
        var entryType := l.types[k];
        ghost var before := log;
        err := Perform(DeleteEntries(entryType, l.name));
        TriedStep(answer, old(log), before, log, plan, k);
        if err.Some? {
          return;
        }
        assert l.types[..k + 1][..k] == l.types[..k];
        store := store.(entries := store.entries[entryType := Without(Docs(store.entries, entryType), l.name)]);
      }
      TriedDone(answer, old(log), log, plan);
      assert l.types[..|l.types|] == l.types;
      return None;
    }

    /** `RemoveList`: the list's entries are cleared first; only if that
        succeeds is its registry row deleted. */
    method RemoveList(l: Metadata) returns (err: Option<Error>)
      modifies this
      ensures Tried(answer, old(log), log, Deletes(l.types, l.name) + [DeleteList(l.name)], err)
      ensures store.entries == Cleared(old(store).entries, l.types[..FirstFault(answer, |old(log)|, |l.types|)], l.name)
      ensures store.tables == old(store).tables
      ensures store.lists == if err.None? then Unnamed(old(store).lists, l.name) else old(store).lists
    {
      err := ClearCache(l);
      if err.Some? {
        TriedStop(answer, old(log), log, Deletes(l.types, l.name), [DeleteList(l.name)], err.value);
        return;
      }
      ghost var mid := log;
      err := Perform(DeleteList(l.name));
      TriedOne(answer, mid, DeleteList(l.name));
      TriedThen(answer, old(log), mid, log, Deletes(l.types, l.name), [DeleteList(l.name)], err);
      if err.Some? {
        return;
      }
      store := store.(lists := Unnamed(store.lists, l.name));
    }

    /** `UpdateListMetadata`: an insert, which the ReplacingMergeTree turns
        into a replacement of the list's row. */
    method UpdateListMetadata(l: Metadata) returns (err: Option<Error>)
      modifies this
      ensures Tried(answer, old(log), log, InsertListPlan(l), err)
      ensures store == if err.None? then old(store).(lists := Upsert(old(store).lists, l)) else old(store)
    {
      err := InsertList(l);
    }

    /** `FindEntries` as written: the statement it sends is the entry table's
        CREATE, which returns no rows, so it never finds anything; a failed
        query is also reported as no match. */
    method FindEntries(dataType: EntryType, index: string) returns (r: Result<seq<BlacklistResult>, Error>)
      modifies this
      ensures r == Success([])
      ensures log == old(log) + [Query(CreateEntryTable(dataType), Some(index))]
      ensures store == old(store).(tables := old(store).tables + if answer(|old(log)|).None? then {dataType} else {})
    {
      var findEntriesQuery := SelectEntriesByIndexQuery(dataType);
      var err := Perform(Query(findEntriesQuery, Some(index)));
      if err.Some? {
        return Success([]);
      }
      store := store.(tables := store.tables + {dataType});
      ghost var mid := log;
      r := ScanRows([]);
      assert Scans(0) == [];
      assert log == mid + [];
    }

    /** `FindEntries` with the select statement: the rows of the type's
        table with the given index, or the error of the first row that
        fails to scan; a failed query still reads as no match. */
    method FindEntriesIntended(dataType: EntryType, index: string) returns (r: Result<seq<BlacklistResult>, Error>)
      modifies this
      ensures store == old(store)
      ensures answer(|old(log)|).Some? ==> r == Success([]) && log == old(log) + [Query(SelectEntriesByIndex(dataType), Some(index))]
      ensures var rows := Matching(Docs(old(store).entries, dataType), index);
              answer(|old(log)|).None? ==>
                && Tried(answer, old(log) + [Query(SelectEntriesByIndex(dataType), Some(index))], log, Scans(|rows|), if r.Failure? then Some(r.error) else None)
                && (r.Success? ==> r.value == rows)
    {
      var findEntriesQuery := SelectEntriesByIndexQueryIntended(dataType);
      var err := Perform(Query(findEntriesQuery, Some(index)));
      if err.Some? {
        return Success([]);
      }
      r := ScanRows(Matching(Docs(store.entries, dataType), index));
    }

    /** `InsertEntries`: every row is appended to the open batch, which is
        sent and replaced each time `BuffSize` rows have gone in, and once
        more at the end when rows are pending; every error is reported and
        the stream is drained all the same. Appending to the nil batch left
        by a failed `PrepareBatch` panics. `wg.Done` is deferred, so it runs
        exactly once on every path. */
    method InsertEntries(entryType: EntryType, entries: seq<BlacklistedEntry>, wg: WaitGroup, errorsOut: Chan<Error>) returns (panicked: bool)
      requires wg.count > 0 && !errorsOut.closed
      modifies this, wg, errorsOut
      ensures var r := Inserted(answer, |old(log)|, entryType, Documents(entries));
              Tracks(r, entryType, old(log), log, old(errorsOut.items), errorsOut.items, old(store), store) && panicked == r.panicked
      ensures !errorsOut.closed && wg.count == old(wg.count) - 1
    {
      var bulk := StartBatch(entryType, entries, errorsOut);
      var i := 0;
      for n := 0 to |entries|
        invariant Looping(answer, entryType, Documents(entries[..n]), bulk, i, old(log), log, old(errorsOut.items), errorsOut.items, old(store), store)
        invariant !errorsOut.closed && wg.count == old(wg.count)
      {
        if bulk.None? {
          PanicAt(answer, |old(log)|, entryType, entries, n);
          wg.Done();
          return true;
        }
        bulk, i := InsertOne(entryType, entries, n, bulk, i, errorsOut, old(log), old(errorsOut.items), old(store));
      }
      SendPending(entryType, entries, bulk, i, errorsOut, old(log), old(errorsOut.items), old(store));
      wg.Done();
      return false;
    }

    /** The first `PrepareBatch`, before any row. */
    method StartBatch(t: EntryType, entries: seq<BlacklistedEntry>, errorsOut: Chan<Error>) returns (bulk: Option<seq<BlacklistResult>>)
      requires !errorsOut.closed
      modifies this, errorsOut
      ensures Looping(answer, t, Documents(entries[..0]), bulk, 0, old(log), log, old(errorsOut.items), errorsOut.items, old(store), store)
      ensures !errorsOut.closed
    {
      assert log == log + [] && errorsOut.items == errorsOut.items + [];
      bulk := PrepareStep(t, errorsOut, Fresh, log, errorsOut.items, store);
      assert entries[..0] == [];
    }

    /** One turn of the loop over the stream, on a batch that is not nil:
        the row is appended, and a batch that has become full is sent and
        replaced. */
    method InsertOne(t: EntryType, entries: seq<BlacklistedEntry>, n: nat, bulk: Option<seq<BlacklistResult>>, i: nat, errorsOut: Chan<Error>,
                     ghost log0: seq<Call>, ghost errors0: seq<Error>, ghost store0: Store)
      returns (bulk': Option<seq<BlacklistResult>>, i': nat)
      requires n < |entries| && bulk.Some? && !errorsOut.closed
      requires Looping(answer, t, Documents(entries[..n]), bulk, i, log0, log, errors0, errorsOut.items, store0, store)
      modifies this, errorsOut
      ensures Looping(answer, t, Documents(entries[..n + 1]), bulk', i', log0, log, errors0, errorsOut.items, store0, store)
      ensures !errorsOut.closed
    {
      ghost var pos := |log0|;
      ghost var seen := Documents(entries[..n]);
      ghost var r := Pumped(answer, pos, t, seen);
      var entry := entries[n];
      var row := BlacklistResult(entry.index, entry.source, entry.extraData);
      DocumentsSnoc(entries, n);
      assert Documents(entries[..n + 1]) == seen + [row];
      PumpedSnoc(answer, pos, t, seen, row);
      BatchSnoc(seen, row);
      bulk' := AppendStep(t, row, bulk, errorsOut, r, log0, errors0, store0);
      i' := i + 1;
      if i' == BuffSize {
        ghost var r1 := Appended(answer, pos, t, r, row);
        SendStep(t, bulk', errorsOut, r1, log0, errors0, store0);
        i' := 0;
        bulk' := PrepareStep(t, errorsOut, Sent(answer, pos, t, r1), log0, errors0, store0);
      }
    }

    /** After the stream: a batch holding rows is sent. */
    method SendPending(t: EntryType, entries: seq<BlacklistedEntry>, bulk: Option<seq<BlacklistResult>>, i: nat, errorsOut: Chan<Error>,
                       ghost log0: seq<Call>, ghost errors0: seq<Error>, ghost store0: Store)
      requires Looping(answer, t, Documents(entries[..|entries|]), bulk, i, log0, log, errors0, errorsOut.items, store0, store)
      requires !errorsOut.closed
      modifies this, errorsOut
      ensures var r := Inserted(answer, |log0|, t, Documents(entries));
              Tracks(r, t, log0, log, errors0, errorsOut.items, store0, store) && !r.panicked
      ensures !errorsOut.closed
    {
      assert entries[..|entries|] == entries;
      if i != 0 {
        SendStep(t, bulk, errorsOut, Pumped(answer, |log0|, t, Documents(entries)), log0, errors0, store0);
      }
    }

    /** `bulk, err = PrepareBatch(...)` with its error reported. */
    method PrepareStep(t: EntryType, errorsOut: Chan<Error>, ghost r: Run, ghost log0: seq<Call>, ghost errors0: seq<Error>, ghost store0: Store)
      returns (bulk: Option<seq<BlacklistResult>>)
      requires Tracks(r, t, log0, log, errors0, errorsOut.items, store0, store) && !r.panicked && !errorsOut.closed
      modifies this, errorsOut
      ensures var r' := Prepared(answer, |log0|, t, r);
              Tracks(r', t, log0, log, errors0, errorsOut.items, store0, store) && bulk == r'.batch && !r'.panicked
      ensures !errorsOut.closed
    {
      var err := Perform(PrepareBatch(t));
      if err.Some? {
        errorsOut.Send(err.value);
        bulk := None;
      } else {
        bulk := Some([]);
      }
      SeqAssoc(log0, r.log, [PrepareBatch(t)]);
      SeqAssoc(errors0, r.errors, if err.Some? then [err.value] else []);
    }

    /** `bulk.Append(...)` on a batch that is not nil, with its error
        reported. */
    method AppendStep(t: EntryType, row: BlacklistResult, bulk: Option<seq<BlacklistResult>>, errorsOut: Chan<Error>,
                      ghost r: Run, ghost log0: seq<Call>, ghost errors0: seq<Error>, ghost store0: Store)
      returns (bulk': Option<seq<BlacklistResult>>)
      requires Tracks(r, t, log0, log, errors0, errorsOut.items, store0, store) && !r.panicked && !errorsOut.closed
      requires bulk == r.batch && bulk.Some?
      modifies this, errorsOut
      ensures var r' := Appended(answer, |log0|, t, r, row);
              Tracks(r', t, log0, log, errors0, errorsOut.items, store0, store) && bulk' == r'.batch && !r'.panicked
      ensures !errorsOut.closed
    {
      var err := Perform(Append(t, row));
      if err.Some? {
        errorsOut.Send(err.value);
        bulk' := bulk;
      } else {
        bulk' := Some(bulk.value + [row]);
      }
      SeqAssoc(log0, r.log, [Append(t, row)]);
      SeqAssoc(errors0, r.errors, if err.Some? then [err.value] else []);
    }

    /** `bulk.Send()` on a batch that is not nil, with its error reported. */
    method SendStep(t: EntryType, bulk: Option<seq<BlacklistResult>>, errorsOut: Chan<Error>,
                    ghost r: Run, ghost log0: seq<Call>, ghost errors0: seq<Error>, ghost store0: Store)
      requires Tracks(r, t, log0, log, errors0, errorsOut.items, store0, store) && !r.panicked && !errorsOut.closed
      requires bulk == r.batch && bulk.Some?
      modifies this, errorsOut
      ensures var r' := Sent(answer, |log0|, t, r);
              Tracks(r', t, log0, log, errors0, errorsOut.items, store0, store) && bulk == r'.batch && !r'.panicked
      ensures !errorsOut.closed
    {
      var err := Perform(Send(t));
      if err.Some? {
        errorsOut.Send(err.value);
      } else {
        store := store.(entries := store.entries[t := Docs(store.entries, t) + bulk.value]);
        SeqAssoc(Docs(store0.entries, t), r.rows, bulk.value);
      }
      SeqAssoc(log0, r.log, [Send(t)]);
      SeqAssoc(errors0, r.errors, if err.Some? then [err.value] else []);
    }
  }
}
