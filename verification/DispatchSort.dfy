// elv_dispatch_sort and elv_dispatch_add_tail of elevator.c: where a request goes in the dispatch queue.
module DispatchSort {
  /** An entry of the dispatch queue; fence: a barrier of either kind, or already started. */
  datatype Entry = Entry(id: nat, sector: nat, fence: bool)

  /** One-way elevator order from the boundary: sectors at or past it first, then those before it, each ascending. */
  predicate NotAfter(boundary: nat, a: nat, b: nat) {
    if (a >= boundary) == (b >= boundary) then a <= b else a >= boundary
  }

  lemma {:induction false} OrderTotal(boundary: nat, a: nat, b: nat, c: nat)
    ensures NotAfter(boundary, a, a) && (NotAfter(boundary, a, b) || NotAfter(boundary, b, a))
    ensures NotAfter(boundary, a, b) && NotAfter(boundary, b, c) ==> NotAfter(boundary, a, c)
    ensures NotAfter(boundary, a, b) && NotAfter(boundary, b, a) ==> a == b
  {
  }

  /** The end of the queue that is free of fences. */
  function RunStart(q: seq<Entry>): (k: nat)
    ensures k <= |q| && (forall i :: k <= i < |q| ==> !q[i].fence) && (k > 0 ==> q[k - 1].fence)
  {
    if |q| == 0 then 0 else if q[|q| - 1].fence then |q| else RunStart(q[..|q| - 1])
  }

  /** The run at the end is in elevator order. */
  ghost predicate RunSorted(q: seq<Entry>, boundary: nat) {
    forall i, j :: RunStart(q) <= i < j < |q| ==> NotAfter(boundary, q[i].sector, q[j].sector)
  }

  /** Where a new entry belongs: behind every fence, behind what is not after it, before the rest. */
  ghost predicate Belongs(q: seq<Entry>, boundary: nat, rq: Entry, k: nat) {
    && RunStart(q) <= k <= |q|
    && (k > RunStart(q) ==> NotAfter(boundary, q[k - 1].sector, rq.sector))
    && (forall i :: k <= i < |q| ==> !NotAfter(boundary, q[i].sector, rq.sector))
  }

  function InsertAt(q: seq<Entry>, k: nat, rq: Entry): seq<Entry>
    requires k <= |q|
  {
    q[..k] + [rq] + q[k..]
  }

  lemma {:induction false} RunStartUnique(q: seq<Entry>, k: nat)
    requires k <= |q| && (forall i :: k <= i < |q| ==> !q[i].fence) && (k > 0 ==> q[k - 1].fence)
    ensures RunStart(q) == k
  {
  }

  /** The run stays where it was, or grows by the new entry. */
  lemma {:induction false} RunStartInsert(q: seq<Entry>, k: nat, rq: Entry)
    requires RunStart(q) <= k <= |q| && !rq.fence
    ensures RunStart(InsertAt(q, k, rq)) == RunStart(q)
  {
    var q' := InsertAt(q, k, rq);
    RunStartUnique(q', RunStart(q));
  }

  /** Exactly one entry is added, all others keep their order, and no fence is passed. */
  lemma {:induction false} InsertKeeps(q: seq<Entry>, boundary: nat, rq: Entry, k: nat)
    requires Belongs(q, boundary, rq, k)
    ensures var q' := InsertAt(q, k, rq);
            && multiset(q') == multiset(q) + multiset{rq} && q'[..k] + q'[k + 1..] == q && q'[k] == rq
            && forall i :: k < i < |q'| ==> !q'[i].fence
  {
    var q' := InsertAt(q, k, rq);
    assert q == q[..k] + q[k..];
    assert q'[..k] == q[..k] && q'[k + 1..] == q[k..];
  }

  /** A run in elevator order stays in elevator order. */
  lemma {:induction false} InsertSorted(q: seq<Entry>, boundary: nat, rq: Entry, k: nat)
    requires Belongs(q, boundary, rq, k) && RunSorted(q, boundary) && !rq.fence
    ensures RunSorted(InsertAt(q, k, rq), boundary)
  {
    var q' := InsertAt(q, k, rq);
    RunStartInsert(q, k, rq);
    forall i, j | RunStart(q') <= i < j < |q'| ensures NotAfter(boundary, q'[i].sector, q'[j].sector) {
      if i < k && j == k {
        OrderTotal(boundary, q[i].sector, q[k - 1].sector, rq.sector);
      } else if i == k {
        OrderTotal(boundary, rq.sector, q[j - 1].sector, rq.sector);
      }
    }
  }

  /** No entry of the run starts inside the request, behind its first sector. */
  ghost predicate Clear(q: seq<Entry>, rq: Entry, size: nat) {
    forall i :: RunStart(q) <= i < |q| ==> !(rq.sector < q[i].sector < rq.sector + size)
  }

  /** With the end of its last entry as boundary the run is in order exactly if what precedes that entry is, and nothing
      there starts inside it; behind a fence the run is empty. */
  lemma {:induction false} TailSorted(q: seq<Entry>, rq: Entry, size: nat)
    requires size > 0
    ensures RunSorted(q + [rq], rq.sector + size) <==>
              rq.fence || (RunSorted(q, rq.sector + size) && Clear(q, rq, size))
  {
    var b := rq.sector + size;
    var q' := q + [rq];
    assert q'[..|q|] == q;
    if !rq.fence {
      assert RunStart(q') == RunStart(q);
      assert forall i :: 0 <= i < |q| ==> q'[i] == q[i];
      if RunSorted(q', b) {
        forall i, j | RunStart(q) <= i < j < |q| ensures NotAfter(b, q[i].sector, q[j].sector) {
          assert NotAfter(b, q'[i].sector, q'[j].sector);
        }
        forall i | RunStart(q) <= i < |q| ensures !(rq.sector < q[i].sector < b) {
          assert NotAfter(b, q'[i].sector, q'[|q|].sector);
        }
      }
    }
  }

  class DispatchQueue {
    var queueHead: seq<Entry>
    var endSector: nat
    var nrSorted: int

    constructor ()
      ensures queueHead == [] && endSector == 0 && nrSorted == 0
    {
      queueHead, endSector, nrSorted := [], 0, 0;
    }

    /** elv_dispatch_sort */
    method Sort(rq: Entry)
      modifies this`queueHead, this`nrSorted
      ensures exists k :: Belongs(old(queueHead), endSector, rq, k) && queueHead == InsertAt(old(queueHead), k, rq)
      ensures nrSorted == old(nrSorted) - 1
      ensures old(RunSorted(queueHead, endSector)) && !rq.fence ==> RunSorted(queueHead, endSector)
    {
      nrSorted := nrSorted - 1;
      var boundary := endSector;
      var k := |queueHead|;
      while k > 0
        invariant RunStart(queueHead) <= k <= |queueHead|
        invariant forall i :: k <= i < |queueHead| ==> !NotAfter(boundary, queueHead[i].sector, rq.sector)
      {
        var pos := queueHead[k - 1];
        if pos.fence {
          break;
        }
        if rq.sector >= boundary {
          if pos.sector < boundary {
            k := k - 1;
            continue;
          }
        } else if pos.sector >= boundary {
          break;
        }
        if rq.sector >= pos.sector {
          break;
        }
        k := k - 1;
      }
      assert Belongs(queueHead, boundary, rq, k);
      if RunSorted(queueHead, boundary) && !rq.fence { InsertSorted(queueHead, boundary, rq, k); }
      queueHead := InsertAt(queueHead, k, rq);
    }

    /** elv_dispatch_add_tail: the request becomes the boundary, for which the run may no longer be in order */
    method AddTail(rq: Entry, size: nat)
      modifies this`queueHead, this`nrSorted, this`endSector
      ensures queueHead == old(queueHead) + [rq] && nrSorted == old(nrSorted) - 1 && endSector == rq.sector + size
      ensures size > 0 ==> (RunSorted(queueHead, endSector) <==>
                              rq.fence || (RunSorted(old(queueHead), endSector) && Clear(old(queueHead), rq, size)))
    {
      if size > 0 { TailSorted(queueHead, rq, size); }
      nrSorted := nrSorted - 1;
      endSector := rq.sector + size;
      queueHead := queueHead + [rq];
    }
  }

  /** The place is unique: the contract of the sort determines its result. */
  lemma {:induction false} BelongsUnique(q: seq<Entry>, boundary: nat, rq: Entry, j: nat, k: nat)
    requires Belongs(q, boundary, rq, j) && Belongs(q, boundary, rq, k)
    ensures j == k
  {
  }
}
