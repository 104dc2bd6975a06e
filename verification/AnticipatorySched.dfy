// as_dispatch_request, as_move_to_dispatch and as_completed_request, updating struct as_data in place.
module AnticipatorySched {
  import opened Lists
  import opened Anticipatory

  class AsData {
    var batchDir: Kind
    var changedBatch: bool
    var newBatch: bool
    var writeBatchIdled: bool
    var currentWriteCount: nat
    var nrDispatched: int
    var waiting: bool
    var syncFifo: seq<Rq>
    var asyncFifo: seq<Rq>
    ghost var flight: set<Rq>
    var kind: map<Rq, Kind>

    ghost function Value(): As
      reads this
    {
      As(batchDir, changedBatch, newBatch, writeBatchIdled, currentWriteCount, nrDispatched, waiting, syncFifo,
          asyncFifo, flight, kind)
    }

    function FifoOf(k: Kind): seq<Rq>
      reads this
      ensures FifoOf(k) == Fifo(Value(), k)
    {
      if k == Sync then syncFifo else asyncFifo
    }

    constructor ()
      ensures Inv(Value())
    {
      batchDir, changedBatch, newBatch, writeBatchIdled := Sync, false, false, false;
      currentWriteCount, nrDispatched, waiting := 0, 0, false;
      syncFifo, asyncFifo, flight, kind := [], [], {}, map[];
    }

    /** as_move_to_dispatch */
    method MoveToDispatch(r: Rq, k: Kind)
      modifies this`waiting, this`currentWriteCount, this`syncFifo, this`asyncFifo, this`flight, this`nrDispatched
      ensures Value() == Move(old(Value()), r, k)
    {
      waiting := false;
      if k == Sync {
        syncFifo := Without(syncFifo, r);
      } else {
        if currentWriteCount != 0 {
          currentWriteCount := currentWriteCount - 1;
        }
        asyncFifo := Without(asyncFifo, r);
      }
      flight := flight + {r};
      nrDispatched := nrDispatched + 1;
    }

    /** The selection of as_dispatch_request: the direction of the batch may change */
    method SelectDirection(now: Now) returns (r: Rq)
      requires |syncFifo| > 0 || |asyncFifo| > 0
      modifies this`batchDir, this`changedBatch, this`newBatch, this`currentWriteCount, this`writeBatchIdled
      ensures Chosen(Value(), r) == Selected(old(Value()), now)
    {
      if |syncFifo| > 0 && !(|asyncFifo| > 0 && batchDir == Sync) {
        if batchDir == Async {
          changedBatch := true;
        }
        batchDir := Sync;
        r := syncFifo[0];
      } else {
        if batchDir == Sync {
          changedBatch := true;
          newBatch := false;
        }
        batchDir := Async;
        currentWriteCount := now.batchSize;
        writeBatchIdled := false;
        r := now.next(Async);
      }
      if |FifoOf(batchDir)| > 0 && now.expired(batchDir) {
        r := FifoOf(batchDir)[0];
      }
    }

    /** The part of as_dispatch_request that finds a request; none if the batch waits for an anticipated one */
    method PickRequest(now: Now) returns (found: Option<Rq>)
      requires |syncFifo| > 0 || |asyncFifo| > 0
      modifies this`batchDir, this`changedBatch, this`newBatch, this`currentWriteCount, this`writeBatchIdled,
          this`waiting
      ensures Picked(old(Value()), now) == if found.Some? then Chosen(Value(), found.value) else Nothing(Value())
    {
      var expired := !changedBatch && !newBatch && (now.late || (batchDir == Async && currentWriteCount == 0));
      if !(|syncFifo| > 0 && |asyncFifo| > 0 && expired) {
        var queued := |FifoOf(batchDir)| > 0;
        if batchDir == Sync && now.anticipates {
          if |syncFifo| > 0 && now.expired(Sync) {
            return Some(syncFifo[0]);
          }
          if now.canWait {
            waiting := true;
            return None;
          }
        }
        if queued {
          if now.expired(batchDir) {
            return Some(FifoOf(batchDir)[0]);
          }
          return Some(now.next(batchDir));
        }
      }
      var r := SelectDirection(now);
      return Some(r);
    }

    /** The end of as_dispatch_request: a changed batch waits until nothing is in flight */
    method Settle(r: Rq) returns (done: bool)
      modifies this`newBatch, this`changedBatch, this`waiting, this`currentWriteCount, this`syncFifo, this`asyncFifo,
          this`flight, this`nrDispatched
      ensures Value() == Settled(Chosen(old(Value()), r)) && (done <==> nrDispatched == old(nrDispatched) + 1)
    {
      if changedBatch {
        if nrDispatched != 0 {
          return false;
        }
        if batchDir == Sync {
          newBatch := true;
        }
        changedBatch := false;
      }
      MoveToDispatch(r, batchDir);
      return true;
    }

    /** A write batch without contention cannot be timed */
    method NoteIdle()
      modifies this`writeBatchIdled
      ensures Value() == Noted(old(Value()))
    {
      if batchDir == Async && |syncFifo| == 0 && (currentWriteCount == 0 || |asyncFifo| == 0) {
        writeBatchIdled := true;
      }
    }

    /** as_dispatch_request without force */
    method DispatchRequest(now: Now) returns (done: bool)
      requires Inv(Value()) && Sensible(Value(), now)
      modifies this
      ensures Value() == Dispatch(old(Value()), now) && Inv(Value())
      ensures done <==> nrDispatched == old(nrDispatched) + 1
    {
      DispatchKeeps(Value(), now);
      NoteIdle();
      if (|syncFifo| == 0 && |asyncFifo| == 0) || waiting || changedBatch {
        return false;
      }
      var found := PickRequest(now);
      if found.None? {
        return false;
      }
      done := Settle(found.value);
    }

    /** as_completed_request */
    method CompletedRequest(r: Rq)
      requires Inv(Value()) && r in flight && r in kind
      modifies this`changedBatch, this`newBatch, this`nrDispatched, this`flight
      ensures Value() == Completed(old(Value()), r) && Inv(Value())
    {
      CompletedKeeps(Value(), r);
      if changedBatch && nrDispatched == 1 {
        changedBatch := false;
        if batchDir == Sync {
          newBatch := true;
        }
      }
      nrDispatched := nrDispatched - 1;
      flight := flight - {r};
      if newBatch && kind[r] == batchDir {
        newBatch := false;
      }
    }

    /** The two loops of a forced dispatch */
    method MoveQueued(k: Kind)
      modifies this`waiting, this`currentWriteCount, this`syncFifo, this`asyncFifo, this`flight, this`nrDispatched
      ensures Value() == MoveAll(old(Value()), k)
    {
      while |FifoOf(k)| > 0
        invariant MoveAll(Value(), k) == MoveAll(old(Value()), k)
        invariant unchanged(this`batchDir, this`changedBatch, this`newBatch, this`writeBatchIdled, this`kind)
        decreases |FifoOf(k)|
      {
        WithoutShorter(FifoOf(k));
        MoveToDispatch(FifoOf(k)[0], k);
      }
    }

    /** as_dispatch_request with force */
    method ForceDispatch()
      requires Inv(Value())
      modifies this
      ensures Value() == Forced(old(Value()))
      ensures old(InStep(Value(), Force)) ==> Inv(Value())
    {
      if InStep(Value(), Force) { ThenKeeps(Value(), Force); }
      batchDir, changedBatch, newBatch := Sync, false, false;
      MoveQueued(Sync);
      MoveQueued(Async);
    }

    /** as_add_rq_rb; the aliases are what elv_rb_add returns in turn */
    method AddRqRb(k: Kind, aliases: seq<Rq>)
      modifies this`syncFifo, this`asyncFifo, this`waiting, this`currentWriteCount, this`flight, this`nrDispatched
      ensures Value() == MoveEach(old(Value()), aliases, k)
    {
      ghost var s := Value();
      var i := 0;
      while i < |aliases|
        invariant 0 <= i <= |aliases| && MoveEach(Value(), aliases[i..], k) == MoveEach(s, aliases, k)
      {
        assert aliases[i..][0] == aliases[i] && aliases[i..][1..] == aliases[i + 1..];
        MoveToDispatch(aliases[i], k);
        i := i + 1;
      }
    }

    /** as_add_request */
    method AddRequest(r: Rq, k: Kind, aliases: seq<Rq>)
      requires Inv(Value()) && r !in kind && Aliases(Value(), aliases, k)
      modifies this`kind, this`syncFifo, this`asyncFifo, this`waiting, this`currentWriteCount, this`flight,
          this`nrDispatched
      ensures Value() == Added(MoveEach(old(Value()), aliases, k), r, k)
      ensures aliases == [] || old(InStep(Value(), Alias(aliases[0], k))) ==> Inv(Value())
    {
      if aliases == [] || InStep(Value(), Alias(aliases[0], k)) {
        MoveEachKeeps(Value(), aliases, k);
        AddedKeeps(MoveEach(Value(), aliases, k), r, k);
      }
      AddRqRb(k, aliases);
      kind := kind[r := k];
      if k == Sync {
        syncFifo := syncFifo + [r];
      } else {
        asyncFifo := asyncFifo + [r];
      }
    }
  }
}
