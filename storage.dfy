/** What the two storage drivers (ClickHouse and MongoDB) have in common:
    entries are written in batches of `BuffSize`, and every call a driver
    makes to its server is answered by the server with success or an error.
    The server's answers are a parameter of the model: `answer(n)` is the
    answer to the n-th call a driver handle makes. */
module Storage {
  import opened Base
  import opened ListEntry
  import opened Feeds

  /** `buffSize` in both `InsertEntries`: entries per batch. */
  const BuffSize: nat := 100000

  /** The number of batches a stream of `n` entries is cut into. */
  function Count(n: nat): nat
  {
    (n + BuffSize - 1) / BuffSize
  }

  /** The reference cut: the k-th batch holds the entries from position
      k * BuffSize up to (k + 1) * BuffSize, the last one what is left. */
  function Chunk<T>(xs: seq<T>, k: nat): seq<T>
    requires k < Count(|xs|)
  {
    xs[k * BuffSize .. if (k + 1) * BuffSize <= |xs| then (k + 1) * BuffSize else |xs|]
  }

  function Chunks<T>(xs: seq<T>): seq<seq<T>>
  {
    seq(Count(|xs|), k requires 0 <= k < Count(|xs|) => Chunk(xs, k))
  }

  function Flatten<T>(xss: seq<seq<T>>): seq<T>
  {
    if |xss| == 0 then [] else Flatten(xss[..|xss| - 1]) + xss[|xss| - 1]
  }

  /** Every batch is non-empty and at most `BuffSize` long, and all but the
      last are full. */
  lemma ChunkSizes<T>(xs: seq<T>)
    ensures |Chunks(xs)| == 0 <==> |xs| == 0
    ensures forall k :: 0 <= k < |Chunks(xs)| ==> 0 < |Chunks(xs)[k]| <= BuffSize
    ensures forall k :: 0 <= k < |Chunks(xs)| - 1 ==> |Chunks(xs)[k]| == BuffSize
  {
  }

  /** How the drivers' counting loops cut a stream: the batches filled so
      far, and the entries of the batch being filled. */
  datatype Batched<T> = Batched(full: seq<seq<T>>, pending: seq<T>)

  function Batch<T>(xs: seq<T>): (b: Batched<T>)
    ensures |b.pending| < BuffSize
  {
    if |xs| == 0 then Batched([], [])
    else
      var b := Batch(xs[..|xs| - 1]);
      var p := b.pending + [xs[|xs| - 1]];
      if |p| == BuffSize then Batched(b.full + [p], []) else Batched(b.full, p)
  }

  /** One more entry either completes the pending batch or joins it. */
  lemma BatchSnoc<T>(xs: seq<T>, x: T)
    ensures var b := Batch(xs);
            Batch(xs + [x]) == if |b.pending| + 1 == BuffSize then Batched(b.full + [b.pending + [x]], []) else Batched(b.full, b.pending + [x])
  {
    assert (xs + [x])[..|xs|] == xs;
  }

  /** The batches the loop sends: the full ones, and the pending one when
      the stream ends with a non-empty one. */
  function Batches<T>(xs: seq<T>): seq<seq<T>>
  {
    Batch(xs).full + if Batch(xs).pending == [] then [] else [Batch(xs).pending]
  }

  /** The loop's count of pending entries is the stream length modulo the
      batch size, and its batches are the reference cut. */
  lemma {:induction false} BatchShape<T>(xs: seq<T>)
    ensures |Batch(xs).full| == |xs| / BuffSize
    ensures Batch(xs).pending == xs[|xs| / BuffSize * BuffSize..]
    ensures forall k :: 0 <= k < |Batch(xs).full| ==> Batch(xs).full[k] == xs[k * BuffSize .. (k + 1) * BuffSize]
    decreases |xs|
  {
    if |xs| > 0 {
      var ys := xs[..|xs| - 1];
      BatchShape(ys);
      var b := Batch(ys);
      var q := |ys| / BuffSize;
      assert ys[q * BuffSize..] + [xs[|xs| - 1]] == xs[q * BuffSize..];
      assert q * BuffSize <= |ys|;
      forall k | 0 <= k < |b.full| ensures b.full[k] == xs[k * BuffSize .. (k + 1) * BuffSize] {
        assert (k + 1) * BuffSize <= q * BuffSize;
        SliceOfPrefix(xs, |ys|, k * BuffSize, (k + 1) * BuffSize);
      }
    }
  }

  lemma SliceOfPrefix<T>(xs: seq<T>, n: nat, a: nat, b: nat)
    requires a <= b <= n <= |xs|
    ensures xs[..n][a..b] == xs[a..b]
  {
    assert forall i :: 0 <= i < b - a ==> xs[..n][a..b][i] == xs[a + i];
  }

  /** The batches the loop sends are exactly the reference batches. */
  lemma BatchesChunks<T>(xs: seq<T>)
    ensures Batches(xs) == Chunks(xs)
  {
    BatchShape(xs);
    var b := Batch(xs);
    var q := |xs| / BuffSize;
    assert |Batches(xs)| == |Chunks(xs)|;
    forall k | 0 <= k < |Chunks(xs)| ensures Batches(xs)[k] == Chunks(xs)[k] {
      if k < q {
        assert Batches(xs)[k] == b.full[k];
      }
    }
  }

  /** The batches filled so far and the pending one hold the stream, each
      entry once, in order. */
  lemma {:induction false} BatchFlatten<T>(xs: seq<T>)
    ensures Flatten(Batch(xs).full) + Batch(xs).pending == xs
    decreases |xs|
  {
    if |xs| > 0 {
      var ys, x := xs[..|xs| - 1], xs[|xs| - 1];
      assert ys + [x] == xs;
      BatchFlatten(ys);
      BatchSnoc(ys, x);
      var b := Batch(ys);
      var p := b.pending + [x];
      SeqAssoc(Flatten(b.full), b.pending, [x]);
      if |p| == BuffSize {
        var full := b.full + [p];
        assert full[..|full| - 1] == b.full;
        assert Flatten(full) == Flatten(b.full) + p;
        assert Flatten(full) + [] == Flatten(full);
      }
    }
  }

  /** The batches sent hold the stream, each entry once, in order. */
  lemma BatchesFlatten<T>(xs: seq<T>)
    ensures Flatten(Batches(xs)) == xs
  {
    BatchFlatten(xs);
    var b := Batch(xs);
    if b.pending != [] {
      assert (b.full + [b.pending])[..|b.full|] == b.full;
      assert Flatten(b.full + [b.pending]) == Flatten(b.full) + b.pending;
    } else {
      assert Batches(xs) == b.full;
    }
  }

  /** The stream is what its reference batches hold. */
  lemma ChunksFlatten<T>(xs: seq<T>)
    ensures Flatten(Chunks(xs)) == xs
  {
    BatchesChunks(xs);
    BatchesFlatten(xs);
  }

  lemma SeqAssoc<T>(a: seq<T>, b: seq<T>, c: seq<T>)
    ensures a + b + c == a + (b + c)
  {
  }

  lemma SplitAt<T>(xs: seq<T>, k: nat)
    requires k <= |xs|
    ensures xs[..k] + xs[k..] == xs
  {
  }

  /** The errors among the answers to calls `from` up to `to`, in order. */
  function Faults(answer: nat -> Option<Error>, from: nat, to: nat): seq<Error>
    decreases to - from
  {
    if to <= from then []
    else Faults(answer, from, to - 1) + if answer(to - 1).Some? then [answer(to - 1).value] else []
  }

  /** Reporting the answer to one more call extends the reported faults. */
  lemma FaultsStep(answer: nat -> Option<Error>, from: nat, to: nat, errors0: seq<Error>, errors: seq<Error>)
    requires from <= to && errors == errors0 + Faults(answer, from, to)
    ensures errors + (if answer(to).Some? then [answer(to).value] else []) == errors0 + Faults(answer, from, to + 1)
  {
    var e := if answer(to).Some? then [answer(to).value] else [];
    assert Faults(answer, from, to + 1) == Faults(answer, from, to) + e;
    assert errors0 + Faults(answer, from, to) + e == errors0 + (Faults(answer, from, to) + e);
  }

  /** Calls that all succeed report nothing; a failing call adds its
      error. */
  lemma {:induction false} FaultsNone(answer: nat -> Option<Error>, from: nat, to: nat)
    requires forall k :: from <= k < to ==> answer(k).None?
    ensures Faults(answer, from, to) == []
    decreases if to <= from then 0 else to - from
  {
    if from < to {
      FaultsNone(answer, from, to - 1);
    }
  }

  /** The position, counted from `start`, of the first of `n` calls that
      fails, or `n` when all succeed. */
  function FirstFault(answer: nat -> Option<Error>, start: nat, n: nat): (k: nat)
    ensures k <= n
    ensures forall j :: start <= j < start + k ==> answer(j).None?
    ensures k < n ==> answer(start + k).Some?
    decreases n
  {
    if n == 0 || answer(start).Some? then 0 else 1 + FirstFault(answer, start + 1, n - 1)
  }

  /** The first fault is where the answers say it is. */
  lemma {:induction false} FirstFaultAt(answer: nat -> Option<Error>, start: nat, n: nat, k: nat)
    requires k <= n
    requires forall j :: start <= j < start + k ==> answer(j).None?
    requires k < n ==> answer(start + k).Some?
    ensures FirstFault(answer, start, n) == k
    decreases n
  {
    if n > 0 && k > 0 {
      FirstFaultAt(answer, start + 1, n - 1, k - 1);
    }
  }

  /** The calls of `plan`, issued from call `start` on, that a driver
      makes when it stops at the first error: all of them up to and
      including the first that fails. */
  function Made<C>(answer: nat -> Option<Error>, start: nat, plan: seq<C>): (r: seq<C>)
    ensures |r| <= |plan|
    decreases |plan|
  {
    if |plan| == 0 then []
    else if answer(start).Some? then [plan[0]]
    else [plan[0]] + Made(answer, start + 1, plan[1..])
  }

  /** The error such a driver returns: that of the first failing call. */
  function Outcome<C>(answer: nat -> Option<Error>, start: nat, plan: seq<C>): Option<Error>
    decreases |plan|
  {
    if |plan| == 0 then None
    else if answer(start).Some? then answer(start)
    else Outcome(answer, start + 1, plan[1..])
  }

  /** The calls of `plan` were made, in order, from position `|log0|` on,
      up to and including the first one that failed, whose error is `err`;
      with no failure, all of them were made and `err` is `None`. */
  ghost predicate Tried<C>(answer: nat -> Option<Error>, log0: seq<C>, log: seq<C>, plan: seq<C>, err: Option<Error>)
  {
    log == log0 + Made(answer, |log0|, plan) && err == Outcome(answer, |log0|, plan)
  }

  /** The calls made are a prefix of the plan. */
  lemma {:induction false} MadePrefix<C>(answer: nat -> Option<Error>, start: nat, plan: seq<C>)
    ensures Made(answer, start, plan) == plan[..|Made(answer, start, plan)|]
    decreases |plan|
  {
    if |plan| > 0 && answer(start).None? {
      var rest := plan[1..];
      MadePrefix(answer, start + 1, rest);
      var m := Made(answer, start + 1, rest);
      assert [plan[0]] + rest[..|m|] == plan[..|m| + 1];
    }
  }

  /** The calls made reach up to and including the first fault. */
  lemma {:induction false} MadeLength<C>(answer: nat -> Option<Error>, start: nat, plan: seq<C>)
    ensures |Made(answer, start, plan)| == if FirstFault(answer, start, |plan|) < |plan| then FirstFault(answer, start, |plan|) + 1 else |plan|
    decreases |plan|
  {
    if |plan| > 0 && answer(start).None? {
      MadeLength(answer, start + 1, plan[1..]);
    }
  }

  /** What `Tried` means: the calls made are the plan up to its first
      fault, and the error is that fault's. */
  lemma MadeFirstFault<C>(answer: nat -> Option<Error>, start: nat, plan: seq<C>)
    ensures var k := FirstFault(answer, start, |plan|);
            && Made(answer, start, plan) == plan[..if k < |plan| then k + 1 else |plan|]
            && Outcome(answer, start, plan) == if k < |plan| then answer(start + k) else None
  {
    MadePrefix(answer, start, plan);
    MadeLength(answer, start, plan);
    OutcomeFirstFault(answer, start, plan);
  }

  lemma {:induction false} OutcomeFirstFault<C>(answer: nat -> Option<Error>, start: nat, plan: seq<C>)
    ensures FirstFault(answer, start, |plan|) < |plan| ==> Outcome(answer, start, plan) == answer(start + FirstFault(answer, start, |plan|))
    ensures FirstFault(answer, start, |plan|) >= |plan| ==> Outcome(answer, start, plan) == None
    decreases |plan|
  {
    if |plan| == 0 {
      assert Outcome(answer, start, plan) == None;
    } else if answer(start).Some? {
      assert FirstFault(answer, start, |plan|) == 0;
      assert Outcome(answer, start, plan) == answer(start);
    } else {
      var rest := plan[1..];
      OutcomeFirstFault(answer, start + 1, rest);
      var k := FirstFault(answer, start + 1, |rest|);
      assert FirstFault(answer, start, |plan|) == k + 1;
      assert Outcome(answer, start, plan) == Outcome(answer, start + 1, rest);
      assert start + (k + 1) == start + 1 + k;
    }
  }

  /** A plan without a fault is made whole and reports nothing; a plan
      reports a fault exactly when one of its answers is one. */
  lemma {:induction false} OutcomeNone<C>(answer: nat -> Option<Error>, start: nat, plan: seq<C>)
    ensures Outcome(answer, start, plan).None? <==> forall j :: start <= j < start + |plan| ==> answer(j).None?
    ensures Outcome(answer, start, plan).None? ==> Made(answer, start, plan) == plan
    decreases |plan|
  {
    if |plan| > 0 {
      OutcomeNone(answer, start + 1, plan[1..]);
      assert [plan[0]] + plan[1..] == plan;
    }
  }

  /** Making `p` and then `q`: `q` is reached only when `p` succeeds. */
  lemma {:induction false} MadeConcat<C>(answer: nat -> Option<Error>, start: nat, p: seq<C>, q: seq<C>)
    ensures Outcome(answer, start, p).Some? ==> Made(answer, start, p + q) == Made(answer, start, p) && Outcome(answer, start, p + q) == Outcome(answer, start, p)
    ensures Outcome(answer, start, p).None? ==> Made(answer, start, p + q) == p + Made(answer, start + |p|, q) && Outcome(answer, start, p + q) == Outcome(answer, start + |p|, q)
    decreases |p|
  {
    if |p| == 0 {
      assert p + q == q;
    } else if answer(start).Some? {
      assert (p + q)[0] == p[0];
    } else {
      var r := p[1..];
      assert (p + q)[0] == p[0] && (p + q)[1..] == r + q;
      assert Made(answer, start, p + q) == [p[0]] + Made(answer, start + 1, r + q);
      assert Outcome(answer, start, p + q) == Outcome(answer, start + 1, r + q);
      assert Outcome(answer, start, p) == Outcome(answer, start + 1, r);
      MadeConcat(answer, start + 1, r, q);
      if Outcome(answer, start + 1, r).None? {
        SeqAssoc([p[0]], r, Made(answer, start + 1 + |r|, q));
        assert [p[0]] + r == p;
      } else {
        assert Made(answer, start, p) == [p[0]] + Made(answer, start + 1, r);
      }
    }
  }

  lemma TriedNothing<C>(answer: nat -> Option<Error>, log0: seq<C>)
    ensures Tried(answer, log0, log0, [], None)
  {
    assert log0 + [] == log0;
  }

  lemma TriedOne<C>(answer: nat -> Option<Error>, log0: seq<C>, c: C)
    ensures Tried(answer, log0, log0 + [c], [c], answer(|log0|))
  {
    assert [c][1..] == [];
    assert [c] + [] == [c];
  }

  /** A plan that succeeded, followed by another. */
  lemma TriedThen<C>(answer: nat -> Option<Error>, log0: seq<C>, log1: seq<C>, log2: seq<C>, p: seq<C>, q: seq<C>, err: Option<Error>)
    requires Tried(answer, log0, log1, p, None) && Tried(answer, log1, log2, q, err)
    ensures Tried(answer, log0, log2, p + q, err)
  {
    OutcomeNone(answer, |log0|, p);
    MadeConcat(answer, |log0|, p, q);
  }

  /** One more call of a plan made in order: either the plan goes on, or
      it stops here and this call's error is the plan's. */
  lemma TriedStep<C>(answer: nat -> Option<Error>, log0: seq<C>, before: seq<C>, log: seq<C>, plan: seq<C>, k: nat)
    requires k < |plan| && Tried(answer, log0, before, plan[..k], None) && log == before + [plan[k]]
    ensures |before| == |log0| + k
    ensures answer(|before|).None? ==> Tried(answer, log0, log, plan[..k + 1], None)
    ensures answer(|before|).Some? ==> Tried(answer, log0, log, plan, answer(|before|)) && FirstFault(answer, |log0|, |plan|) == k
  {
    TriedExtend(answer, log0, before, log, plan, k);
    if answer(|log0| + k).Some? {
      TriedHalt(answer, log0, log, plan, k);
    }
  }

  lemma TriedExtend<C>(answer: nat -> Option<Error>, log0: seq<C>, before: seq<C>, log: seq<C>, plan: seq<C>, k: nat)
    requires k < |plan| && Tried(answer, log0, before, plan[..k], None) && log == before + [plan[k]]
    ensures |before| == |log0| + k
    ensures forall j :: |log0| <= j < |log0| + k ==> answer(j).None?
    ensures Tried(answer, log0, log, plan[..k + 1], answer(|log0| + k))
  {
    var done := plan[..k];
    OutcomeNone(answer, |log0|, done);
    assert before == log0 + done;
    TriedOne(answer, before, plan[k]);
    assert plan[..k + 1] == done + [plan[k]];
    TriedThen(answer, log0, before, log, done, [plan[k]], answer(|before|));
  }

  lemma TriedHalt<C>(answer: nat -> Option<Error>, log0: seq<C>, log: seq<C>, plan: seq<C>, k: nat)
    requires k < |plan| && answer(|log0| + k).Some?
    requires forall j :: |log0| <= j < |log0| + k ==> answer(j).None?
    requires Tried(answer, log0, log, plan[..k + 1], answer(|log0| + k))
    ensures Tried(answer, log0, log, plan, answer(|log0| + k)) && FirstFault(answer, |log0|, |plan|) == k
  {
    FirstFaultAt(answer, |log0|, |plan|, k);
    TriedStop(answer, log0, log, plan[..k + 1], plan[k + 1..], answer(|log0| + k).value);
    SplitAt(plan, k + 1);
  }

  /** A plan made whole without an error: every call succeeded. */
  lemma TriedDone<C>(answer: nat -> Option<Error>, log0: seq<C>, log: seq<C>, plan: seq<C>)
    requires Tried(answer, log0, log, plan[..|plan|], None)
    ensures Tried(answer, log0, log, plan, None) && log == log0 + plan
    ensures FirstFault(answer, |log0|, |plan|) == |plan|
  {
    assert plan[..|plan|] == plan;
    OutcomeNone(answer, |log0|, plan);
    FirstFaultAt(answer, |log0|, |plan|, |plan|);
  }

  /** A plan that failed: whatever was to follow is never tried. */
  lemma TriedStop<C>(answer: nat -> Option<Error>, log0: seq<C>, log1: seq<C>, p: seq<C>, q: seq<C>, e: Error)
    requires Tried(answer, log0, log1, p, Some(e))
    ensures Tried(answer, log0, log1, p + q, Some(e))
  {
    MadeConcat(answer, |log0|, p, q);
  }

  /* Tables of documents, shared by both drivers: a table (a MongoDB
     collection or a ClickHouse table) holds `BlacklistResult` rows. */

  /** The documents of a collection; a missing collection holds none. */
  function Docs(entries: map<string, seq<BlacklistResult>>, collection: string): seq<BlacklistResult>
  {
    if collection in entries then entries[collection] else []
  }

  /** `RemoveAll({"list": name})` on a sequence of documents. */
  function Without(docs: seq<BlacklistResult>, name: string): (r: seq<BlacklistResult>)
    ensures forall d :: d in r <==> d in docs && d.list != name
  {
    if |docs| == 0 then []
    else Without(docs[..|docs| - 1], name) + if docs[|docs| - 1].list == name then [] else [docs[|docs| - 1]]
  }

  /** `Find({"index": index})` on a sequence of documents. */
  function Matching(docs: seq<BlacklistResult>, index: string): (r: seq<BlacklistResult>)
    ensures forall d :: d in r <==> d in docs && d.index == index
  {
    if |docs| == 0 then []
    else Matching(docs[..|docs| - 1], index) + if docs[|docs| - 1].index == index then [docs[|docs| - 1]] else []
  }

  /** The documents of every collection in `types` without those of list
      `name`, in the order `ClearCache` visits them. */
  function Cleared(entries: map<string, seq<BlacklistResult>>, types: seq<EntryType>, name: string): map<string, seq<BlacklistResult>>
  {
    if |types| == 0 then entries
    else
      var e := Cleared(entries, types[..|types| - 1], name);
      var t := types[|types| - 1];
      e[t := Without(Docs(e, t), name)]
  }

  lemma {:induction false} WithoutConcat(xs: seq<BlacklistResult>, ys: seq<BlacklistResult>, name: string)
    ensures Without(xs + ys, name) == Without(xs, name) + Without(ys, name)
    decreases |ys|
  {
    if |ys| > 0 {
      var init, y := ys[..|ys| - 1], ys[|ys| - 1];
      var e := if y.list == name then [] else [y];
      WithoutConcat(xs, init, name);
      assert (xs + ys)[..|xs + ys| - 1] == xs + init && (xs + ys)[|xs + ys| - 1] == y;
      assert Without(xs + ys, name) == Without(xs + init, name) + e;
      assert Without(ys, name) == Without(init, name) + e;
      SeqAssoc(Without(xs, name), Without(init, name), e);
    } else {
      assert xs + ys == xs;
    }
  }

  /** Removing twice removes nothing more. */
  lemma {:induction false} WithoutIdempotent(docs: seq<BlacklistResult>, name: string)
    ensures Without(Without(docs, name), name) == Without(docs, name)
    decreases |docs|
  {
    if |docs| > 0 {
      var init := docs[..|docs| - 1];
      var last := [docs[|docs| - 1]];
      WithoutIdempotent(init, name);
      WithoutConcat(Without(init, name), Without(last, name), name);
      assert last[..0] == [];
      if docs[|docs| - 1].list == name {
        assert Without(last, name) == [];
      } else {
        assert Without(last, name) == last;
      }
    }
  }

  /** After clearing, the visited collections hold no document of the list
      and the others are as they were. */
  lemma {:induction false} ClearedDocs(entries: map<string, seq<BlacklistResult>>, types: seq<EntryType>, name: string, c: string)
    ensures Docs(Cleared(entries, types, name), c) == if c in types then Without(Docs(entries, c), name) else Docs(entries, c)
    decreases |types|
  {
    if |types| > 0 {
      var init := types[..|types| - 1];
      ClearedDocs(entries, init, name, c);
      var t := types[|types| - 1];
      assert c in types <==> c in init || c == t;
      if c == t && c in init {
        WithoutIdempotent(Docs(entries, c), name);
      }
    }
  }

  /** The documents of a stream of entries: index, list name, extra data. */
  function Documents(es: seq<BlacklistedEntry>): (r: seq<BlacklistResult>)
    ensures |r| == |es|
  {
    if |es| == 0 then [] else Documents(es[..|es| - 1]) + [ToResult(es[|es| - 1])]
  }

  /** Each entry becomes the document at its own position. */
  lemma DocumentsSnoc(es: seq<BlacklistedEntry>, n: nat)
    requires n < |es|
    ensures Documents(es[..n + 1]) == Documents(es[..n]) + [ToResult(es[n])]
  {
    assert es[..n + 1][..n] == es[..n];
  }

  lemma {:induction false} DocumentsAt(es: seq<BlacklistedEntry>, k: nat)
    requires k < |es|
    ensures Documents(es)[k] == BlacklistResult(es[k].index, es[k].source, es[k].extraData)
    decreases |es|
  {
    if k < |es| - 1 {
      DocumentsAt(es[..|es| - 1], k);
    }
  }
}
