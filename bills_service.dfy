/**
 * `BillsService.saveAndDeleteBillsReactive`: the bill collection is
 * emptied, the export at the URL is read, and its bills are saved in
 * batches of 200, each failed batch falling back to saving its bills one
 * by one. The result is the number of bills saved.
 */
module BillsImport {
  import opened Wrappers
  import opened Domain
  import opened Stores
  import opened DownloadService

  /** `buffer(200)`. */
  const BatchSize := 200

  /** `buffer(n)`: consecutive slices of `n`, the last one holding the remainder. */
  function Batches<T>(xs: seq<T>, n: nat): (bs: seq<seq<T>>)
    requires n > 0
    ensures forall k :: 0 <= k < |bs| ==> 0 < |bs[k]| <= n
    ensures forall k :: 0 <= k < |bs| - 1 ==> |bs[k]| == n
    ensures xs == [] <==> bs == []
    decreases |xs|
  {
    if xs == [] then []
    else if |xs| <= n then [xs]
    else [xs[..n]] + Batches(xs[n..], n)
  }

  /** The batches laid end to end. */
  function Flatten<T>(bs: seq<seq<T>>): seq<T>
  {
    if bs == [] then [] else Flatten(bs[..|bs| - 1]) + bs[|bs| - 1]
  }

  lemma {:induction false} FlattenAppend<T>(a: seq<seq<T>>, b: seq<seq<T>>)
    ensures Flatten(a + b) == Flatten(a) + Flatten(b)
    decreases |b|
  {
    if b == [] {
      assert a + b == a;
    } else {
      assert (a + b)[..|a + b| - 1] == a + b[..|b| - 1];
      FlattenAppend(a, b[..|b| - 1]);
    }
  }

  /** Batching neither loses, duplicates nor reorders: the batches laid end to end are the input. */
  lemma {:induction false} FlattenBatches<T>(xs: seq<T>, n: nat)
    requires n > 0
    ensures Flatten(Batches(xs, n)) == xs
    decreases |xs|
  {
    if xs == [] {
    } else if |xs| <= n {
      assert Flatten([xs]) == Flatten([xs][..0]) + xs;
    } else {
      FlattenBatches(xs[n..], n);
      FlattenAppend([xs[..n]], Batches(xs[n..], n));
      assert Flatten([xs[..n]]) == Flatten([xs[..n]][..0]) + xs[..n];
      assert xs[..n] + xs[n..] == xs;
    }
  }

  /** As many batches of 200 as the rows need. */
  lemma {:induction false} BatchCount<T>(xs: seq<T>)
    ensures |Batches(xs, BatchSize)| == (|xs| + BatchSize - 1) / BatchSize
    decreases |xs|
  {
    if |xs| > BatchSize {
      BatchCount(xs[BatchSize..]);
    }
  }

  /** 450 rows make batches of 200, 200 and 50. */
  lemma FourHundredFiftyRows<T>(xs: seq<T>)
    requires |xs| == 450
    ensures var bs := Batches(xs, BatchSize);
            |bs| == 3 && |bs[0]| == 200 && |bs[1]| == 200 && |bs[2]| == 50
  {
    assert Batches(xs[400..], BatchSize) == [xs[400..]];
    assert Batches(xs[200..][200..], BatchSize) == [xs[400..]] by { assert xs[200..][200..] == xs[400..]; }
  }

  /** Up to 200 rows (150, or exactly 200) make a single batch; no rows make none, so `saveAll` is never called. */
  lemma SmallImportsOneBatch<T>(xs: seq<T>)
    requires |xs| <= BatchSize
    ensures xs != [] ==> Batches(xs, BatchSize) == [xs]
    ensures xs == [] ==> Batches(xs, BatchSize) == []
  {
  }

  /** The bills of a batch whose own `save` succeeds, in batch order. */
  function Survivors(batch: seq<Bills>, rowFails: Bills -> bool): (r: seq<Bills>)
    ensures |r| <= |batch|
  {
    if batch == [] then []
    else
      var rest := Survivors(batch[..|batch| - 1], rowFails);
      var last := batch[|batch| - 1];
      if rowFails(last) then rest else rest + [last]
  }

  /** A bill survives only if it is in the batch and saves alone. */
  lemma {:induction false} SurvivorsFromBatch(batch: seq<Bills>, rowFails: Bills -> bool)
    ensures forall b :: b in Survivors(batch, rowFails) ==> b in batch && !rowFails(b)
    decreases |batch|
  {
    if batch != [] {
      SurvivorsFromBatch(batch[..|batch| - 1], rowFails);
    }
  }

  /** Without failing rows the fallback saves the whole batch. */
  lemma {:induction false} SurvivorsAll(batch: seq<Bills>, rowFails: Bills -> bool)
    requires forall k :: 0 <= k < |batch| ==> !rowFails(batch[k])
    ensures Survivors(batch, rowFails) == batch
    decreases |batch|
  {
    if batch != [] {
      SurvivorsAll(batch[..|batch| - 1], rowFails);
    }
  }

  /** What one batch leaves in the store: all of it, or after the fallback the bills that saved alone. */
  function Kept(batch: seq<Bills>, batchFails: seq<Bills> -> bool, rowFails: Bills -> bool): (r: seq<Bills>)
    ensures !batchFails(batch) ==> r == batch
    ensures batchFails(batch) ==> r == Survivors(batch, rowFails)
  {
    if batchFails(batch) then Survivors(batch, rowFails) else batch
  }

  /** What the batches leave in the store, in order. */
  function Imported(bs: seq<seq<Bills>>, batchFails: seq<Bills> -> bool, rowFails: Bills -> bool): (r: seq<Bills>)
    ensures |r| <= |Flatten(bs)|
  {
    if bs == [] then []
    else Imported(bs[..|bs| - 1], batchFails, rowFails) + Kept(bs[|bs| - 1], batchFails, rowFails)
  }

  /** Every imported bill comes from the export, and none is imported that failed its own save after its batch failed. */
  lemma {:induction false} ImportedFromInput(bs: seq<seq<Bills>>, batchFails: seq<Bills> -> bool, rowFails: Bills -> bool)
    ensures forall b :: b in Imported(bs, batchFails, rowFails) ==> b in Flatten(bs)
    decreases |bs|
  {
    if bs != [] {
      ImportedFromInput(bs[..|bs| - 1], batchFails, rowFails);
      SurvivorsFromBatch(bs[|bs| - 1], rowFails);
    }
  }

  /** With no failing write the store ends up with exactly the export's bills, in order. */
  lemma {:induction false} ImportedAllWithoutFailures(bs: seq<seq<Bills>>, batchFails: seq<Bills> -> bool, rowFails: Bills -> bool)
    requires forall k :: 0 <= k < |bs| ==> !batchFails(bs[k])
    ensures Imported(bs, batchFails, rowFails) == Flatten(bs)
    decreases |bs|
  {
    if bs != [] {
      ImportedAllWithoutFailures(bs[..|bs| - 1], batchFails, rowFails);
    }
  }

  /** What `deleteAll` leaves: nothing, or everything when its failure is swallowed. */
  function Cleared(bills: seq<Bills>, deleteFails: bool): seq<Bills>
  {
    if deleteFails then bills else []
  }

  /**
   * The part of `bills` that `buffer(200)` has handed on when its input
   * then fails: the full batches only, as the batch still being filled is
   * dropped with the error.
   */
  function FullBatchesOf<T>(bills: seq<T>): (r: seq<T>)
    ensures r <= bills && |r| % BatchSize == 0 && |bills| - |r| < BatchSize
  {
    bills[..|bills| / BatchSize * BatchSize]
  }

  /** Input whose length is a multiple of 200 is cut into full batches only. */
  lemma {:induction false} BatchesOfMultiple<T>(xs: seq<T>)
    requires |xs| % BatchSize == 0
    ensures forall k :: 0 <= k < |Batches(xs, BatchSize)| ==> |Batches(xs, BatchSize)[k]| == BatchSize
    decreases |xs|
  {
    if |xs| > BatchSize {
      BatchesOfMultiple(xs[BatchSize..]);
      var bs := Batches(xs, BatchSize);
      assert bs == [xs[..BatchSize]] + Batches(xs[BatchSize..], BatchSize);
      forall k | 0 <= k < |bs|
        ensures |bs[k]| == BatchSize
      {
        if k > 0 {
          assert bs[k] == Batches(xs[BatchSize..], BatchSize)[k - 1];
        }
      }
    }
  }

  /**
   * The batches `buffer(200)` emits for the parsed bills of the export:
   * all of them when the stream completes; when it fails, only full
   * batches (the partial buffer is dropped), and together they are a
   * prefix of the bills that misses fewer than 200. Whether those batches
   * are all saved is `SavedBatches`' concern.
   */
  function Emitted(bills: seq<Bills>, complete: bool): (bs: seq<seq<Bills>>)
    ensures complete ==> Flatten(bs) == bills
    ensures !complete ==> forall k :: 0 <= k < |bs| ==> |bs[k]| == BatchSize
    ensures !complete ==> Flatten(bs) <= bills && |bills| - |Flatten(bs)| < BatchSize
  {
    var delivered := if complete then bills else FullBatchesOf(bills);
    FlattenBatches(delivered, BatchSize);
    if complete then Batches(delivered, BatchSize)
    else
      BatchesOfMultiple(delivered);
      Batches(delivered, BatchSize)
  }

  /** Full batches laid end to end hold 200 bills each. */
  lemma {:induction false} FlattenFullLength<T>(bs: seq<seq<T>>)
    requires forall k :: 0 <= k < |bs| ==> |bs[k]| == BatchSize
    ensures |Flatten(bs)| == |bs| * BatchSize
    decreases |bs|
  {
    if bs != [] {
      FlattenFullLength(bs[..|bs| - 1]);
    }
  }

  /** The first batches laid end to end begin the whole. */
  lemma FlattenPrefix<T>(bs: seq<seq<T>>, k: nat)
    requires k <= |bs|
    ensures Flatten(bs[..k]) <= Flatten(bs)
  {
    FlattenAppend(bs[..k], bs[k..]);
    assert bs[..k] + bs[k..] == bs;
  }

  /**
   * The emitted batches whose saves complete. On a completed stream, all
   * of them. On a failed one, `concatMap` stops at the error (its default
   * error mode): the save in progress is cancelled and the batches still
   * queued are dropped, so only the first `finished` emitted batches are
   * saved, `finished` being how many saves had completed by then.
   */
  function SavedBatches(bills: seq<Bills>, complete: bool, finished: nat): (bs: seq<seq<Bills>>)
    ensures complete ==> bs == Emitted(bills, true) && Flatten(bs) == bills
    ensures !complete ==> bs <= Emitted(bills, false)
    ensures !complete ==> |bs| == if finished < |Emitted(bills, false)| then finished else |Emitted(bills, false)|
    ensures !complete ==> Flatten(bs) <= bills && |Flatten(bs)| == |bs| * BatchSize
  {
    var es := Emitted(bills, complete);
    if complete then es
    else
      var n := if finished < |es| then finished else |es|;
      FlattenPrefix(es, n);
      FlattenFullLength(es[..n]);
      es[..n]
  }

  /**
   * A stream that fails part way leaves in the store, with no failing
   * write, a prefix of the export's bills made of whole batches of 200,
   * one per batch whose save finished before the error.
   */
  lemma FailedStreamKeepsFinishedBatches(bills: seq<Bills>, finished: nat, batchFails: seq<Bills> -> bool, rowFails: Bills -> bool)
    requires forall b :: !batchFails(b)
    ensures var bs := SavedBatches(bills, false, finished);
            var kept := Imported(bs, batchFails, rowFails);
            kept <= bills && |kept| == |bs| * BatchSize && |bs| <= finished
  {
    var bs := SavedBatches(bills, false, finished);
    ImportedAllWithoutFailures(bs, batchFails, rowFails);
  }

  /**
   * How `saveAndDeleteBillsReactive` ends: it throws while being assembled
   * (`Thrown`), its `Mono` fails (`Failed`), or it yields the number of
   * bills saved (`Done`).
   */
  datatype ImportResult = Thrown | Failed | Done(saved: nat)

  /** The step of the batch loop. */
  lemma ImportedStep(bs: seq<seq<Bills>>, i: nat, batchFails: seq<Bills> -> bool, rowFails: Bills -> bool)
    requires i < |bs|
    ensures Imported(bs[..i + 1], batchFails, rowFails) == Imported(bs[..i], batchFails, rowFails) + Kept(bs[i], batchFails, rowFails)
    ensures Flatten(bs[..i + 1]) == Flatten(bs[..i]) + bs[i]
  {
    assert bs[..i + 1][..i] == bs[..i];
  }

  /** The batch loop's invariant carried over one batch. */
  lemma BatchStep(start: seq<Bills>, before: seq<Bills>, after: seq<Bills>, bs: seq<seq<Bills>>, i: nat,
                  batchFails: seq<Bills> -> bool, rowFails: Bills -> bool)
    requires i < |bs|
    requires before == start + Imported(bs[..i], batchFails, rowFails)
    requires after == before + Kept(bs[i], batchFails, rowFails)
    ensures after == start + Imported(bs[..i + 1], batchFails, rowFails)
    ensures |Imported(bs[..i + 1], batchFails, rowFails)| == |Imported(bs[..i], batchFails, rowFails)| + |Kept(bs[i], batchFails, rowFails)|
    ensures |Flatten(bs[..i + 1])| == |Flatten(bs[..i])| + |bs[i]|
  {
    ImportedStep(bs, i, batchFails, rowFails);
  }

  /** The step of the one-by-one loop. */
  lemma SurvivorsStep(batch: seq<Bills>, j: nat, rowFails: Bills -> bool)
    requires j < |batch|
    ensures Survivors(batch[..j + 1], rowFails)
            == Survivors(batch[..j], rowFails) + (if rowFails(batch[j]) then [] else [batch[j]])
  {
    assert batch[..j + 1][..j] == batch[..j];
  }

  class BillsService {
    const store: BillsStore

    constructor (store: BillsStore)
      ensures this.store == store
    {
      this.store := store;
    }

    /**
     * The fallback for a failed batch: save each bill alone, counting the
     * successes and the failures.
     */
    method SaveOneByOne(batch: seq<Bills>) returns (saved: nat, failed: nat)
      modifies store
      ensures store.bills == old(store.bills) + Survivors(batch, store.rowFails)
      ensures saved == |Survivors(batch, store.rowFails)| && saved + failed == |batch|
    {
      saved, failed := 0, 0;
      var j := 0;
      while j < |batch|
        invariant 0 <= j <= |batch|
        invariant store.bills == old(store.bills) + Survivors(batch[..j], store.rowFails)
        invariant saved == |Survivors(batch[..j], store.rowFails)| && saved + failed == j
      {
        SurvivorsStep(batch, j, store.rowFails);
        var ok := store.Save(batch[j]);
        if ok {
          saved := saved + 1;
        } else {
          failed := failed + 1;
        }
        j := j + 1;
      }
      assert batch[..j] == batch;
    }

    /** One batch: saved whole, or one bill at a time when that fails. */
    method SaveBatch(batch: seq<Bills>) returns (saved: nat, failed: nat)
      modifies store
      ensures store.bills == old(store.bills) + Kept(batch, store.batchFails, store.rowFails)
      ensures saved == |Kept(batch, store.batchFails, store.rowFails)| && saved + failed == |batch|
    {
      var ok := store.SaveAll(batch);
      if ok {
        saved, failed := |batch|, 0;
      } else {
        saved, failed := SaveOneByOne(batch);
      }
    }

    /**
     * `concatMap` over the batches: each is saved whole, or one bill at a
     * time when that fails. Returns `successCount`; `errorCount` is only logged.
     */
    method SaveBatches(bs: seq<seq<Bills>>) returns (successCount: nat)
      modifies store
      ensures store.bills == old(store.bills) + Imported(bs, store.batchFails, store.rowFails)
      ensures successCount == |Imported(bs, store.batchFails, store.rowFails)|
    {
      successCount := 0;
      var errorCount := 0;
      ghost var start := store.bills;
      var i := 0;
      while i < |bs|
        invariant 0 <= i <= |bs|
        invariant store.bills == start + Imported(bs[..i], store.batchFails, store.rowFails)
        invariant successCount == |Imported(bs[..i], store.batchFails, store.rowFails)|
        invariant successCount + errorCount == |Flatten(bs[..i])|
      {
        ghost var before := store.bills;
        var saved, failed := SaveBatch(bs[i]);
        successCount := successCount + saved;
        errorCount := errorCount + failed;
        BatchStep(start, before, store.bills, bs, i, store.batchFails, store.rowFails);
        i := i + 1;
      }
      assert bs[..i] == bs;
    }

    /**
     * `saveAndDeleteBillsReactive(url)`. `fetch` stands for the download.
     * A URL `URI.create` rejects throws before anything is subscribed, so
     * the delete never runs. Otherwise the delete runs first, its failure
     * swallowed; then the emitted batches are saved, and a stream that fails
     * part way fails the whole import: `concatMap` cancels the save in
     * progress and drops the queued batches, so only the first `finished`
     * emitted batches, whose saves completed before the error, stay saved.
     * `finished` is scheduling, which the model does not compute.
     */
    method SaveAndDeleteBills(url: string, fetch: string -> Fetched, finished: nat) returns (r: ImportResult)
      modifies store
      ensures r.Thrown? <==> fetch(url).BadUri?
      ensures r.Thrown? ==> store.bills == old(store.bills)
      ensures fetch(url).Streamed? ==>
                var f := fetch(url);
                var imported := Imported(SavedBatches(ParseCsv(f.lines), f.complete, finished), store.batchFails, store.rowFails);
                store.bills == Cleared(old(store.bills), store.deleteFails) + imported
                && r == (if f.complete then Done(|imported|) else Failed)
    {
      var f := fetch(url);
      if f.BadUri? {
        return Thrown;
      }
      var deleted := store.DeleteAll();
      var bs := SavedBatches(ParseCsv(f.lines), f.complete, finished);
      var successCount := SaveBatches(bs);
      r := if f.complete then Done(successCount) else Failed;
    }
  }
}
