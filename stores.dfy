/**
 * The collaborators the engine talks to, reduced to what it can observe:
 * the WhatsApp gateway as a log of the messages handed to it, the visit
 * store, and the bill store with its `findByNoSpk` query. Whether a store
 * accepts a write is a fixed, unknown predicate given at construction.
 */
module Stores {
  import opened Wrappers
  import opened Domain

  /** The WhatsApp gateway: every message handed to `sendMessage`, in order. */
  class Outbox {
    ghost var sent: seq<Outbound>

    constructor ()
      ensures sent == []
    {
      sent := [];
    }

    method Send(m: Outbound)
      modifies this
      ensures sent == old(sent) + [m]
    {
      sent := sent + [m];
    }
  }

  /** The visit collection; `accepts` says which saves succeed. */
  class VisitStore {
    var saved: seq<Visit>
    const accepts: Visit -> bool

    constructor (accepts: Visit -> bool)
      ensures saved == [] && this.accepts == accepts
    {
      saved := [];
      this.accepts := accepts;
    }

    /** `visitService.save`: the saved visit, or `None` when the store refuses it. */
    method Save(v: Visit) returns (r: Option<Visit>)
      modifies this
      ensures accepts(v) ==> r == Some(v) && saved == old(saved) + [v]
      ensures !accepts(v) ==> r.None? && saved == old(saved)
    {
      if accepts(v) {
        saved := saved + [v];
        r := Some(v);
      } else {
        r := None;
      }
    }
  }

  /** The three outcomes of `findByNoSpk`: one bill, none, or an error (several bills share the SPK). */
  datatype BillLookup = Found(bill: Bills) | NotFound | LookupFailed

  /** The bills whose SPK is `spk`, in store order. */
  function WithSpk(bills: seq<Bills>, spk: string): (r: seq<Bills>)
    ensures forall b :: b in r <==> b in bills && b.noSpk == spk
    ensures |r| <= |bills|
  {
    if bills == [] then []
    else (if bills[0].noSpk == spk then [bills[0]] else []) + WithSpk(bills[1..], spk)
  }

  /** `findByNoSpk` on a single-result query. */
  function LookupSpk(bills: seq<Bills>, spk: string): (r: BillLookup)
    ensures r.Found? ==> r.bill in bills && r.bill.noSpk == spk
    ensures r.NotFound? <==> forall b :: b in bills ==> b.noSpk != spk
    ensures r.Found? <==> |WithSpk(bills, spk)| == 1
    ensures r.LookupFailed? <==> |WithSpk(bills, spk)| >= 2
  {
    var m := WithSpk(bills, spk);
    if |m| == 0 then NotFound
    else if |m| == 1 then assert m[0] in m; Found(m[0])
    else assert m[0] in m; LookupFailed
  }

  /**
   * The bill collection. `deleteFails`, `batchFails` and `rowFails` say
   * which of `deleteAll`, `saveAll` and `save` fail (after their retries).
   */
  class BillsStore {
    var bills: seq<Bills>
    const deleteFails: bool
    const batchFails: seq<Bills> -> bool
    const rowFails: Bills -> bool

    constructor (bills: seq<Bills>, deleteFails: bool, batchFails: seq<Bills> -> bool, rowFails: Bills -> bool)
      ensures this.bills == bills && this.deleteFails == deleteFails
      ensures this.batchFails == batchFails && this.rowFails == rowFails
    {
      this.bills := bills;
      this.deleteFails := deleteFails;
      this.batchFails := batchFails;
      this.rowFails := rowFails;
    }

    /** `findBillBySpk`, a plain delegation to `findByNoSpk`. */
    method FindBillBySpk(spk: string) returns (r: BillLookup)
      ensures r == LookupSpk(bills, spk)
    {
      var m := WithSpk(bills, spk);
      if |m| == 0 {
        r := NotFound;
      } else if |m| == 1 {
        r := Found(m[0]);
      } else {
        r := LookupFailed;
      }
    }

    /** `deleteAll`: empties the store unless it fails; reports whether it succeeded. */
    method DeleteAll() returns (ok: bool)
      modifies this
      ensures ok == !deleteFails
      ensures bills == (if ok then [] else old(bills))
    {
      ok := !deleteFails;
      if ok {
        bills := [];
      }
    }

    /** `saveAll` of one batch: all its bills or none. */
    method SaveAll(batch: seq<Bills>) returns (ok: bool)
      modifies this
      ensures ok == !batchFails(batch)
      ensures bills == (if ok then old(bills) + batch else old(bills))
    {
      ok := !batchFails(batch);
      if ok {
        bills := bills + batch;
      }
    }

    /** `save` of one bill. */
    method Save(b: Bills) returns (ok: bool)
      modifies this
      ensures ok == !rowFails(b)
      ensures bills == (if ok then old(bills) + [b] else old(bills))
    {
      ok := !rowFails(b);
      if ok {
        bills := bills + [b];
      }
    }
  }
}
