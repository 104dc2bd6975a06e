// The request list as ll_rw_blk.c keeps it: counters and flags updated in place, each method proved against
// RequestPool.
module RequestList {
  import opened Directions
  import opened RequestPool

  class RequestQueue {
    var count: Two<nat>
    var full: Two<bool>
    var congested: Two<bool>
    var starved: Two<bool>
    var nrRequests: nat
    var congestionOn: int
    var congestionOff: int
    var elvpriv: nat
    var live: map<nat, Rq>
    var elevator: nat
    var elvSwitch: bool
    var attached: bool
    var previous: nat
    ghost var veterans: set<nat>

    ghost function Value(): Pool
      reads this
    {
      Pool(count, full, congested, starved, nrRequests, congestionOn, congestionOff, elvpriv, live, elevator,
           elvSwitch, attached, previous, veterans)
    }

    constructor (nr: nat, elevator: nat)
      requires nr >= MIN_RQ
      ensures Value() == Init(nr, elevator) && Inv(Value())
    {
      count, full, congested, starved := Two(0, 0), Two(false, false), Two(false, false), Two(false, false);
      nrRequests, elvpriv, live := nr, 0, map[];
      this.elevator, elvSwitch, attached, previous, veterans := elevator, false, false, elevator, {};
      new;
      CongestionThreshold();
      InitOk(nr, elevator);
    }

    /** blk_queue_congestion_threshold */
    method CongestionThreshold()
      modifies this`congestionOn, this`congestionOff
      ensures congestionOn == OnThreshold(nrRequests) && congestionOff == OffThreshold(nrRequests)
    {
      var nr: int := nrRequests - nrRequests / 8 + 1;
      if nr > nrRequests {
        nr := nrRequests;
      }
      congestionOn := nr;
      nr := nrRequests - nrRequests / 8 - nrRequests / 16 - 1;
      if nr < 1 {
        nr := 1;
      }
      congestionOff := nr;
    }

    /** The first checks of get_request: whether the caller is turned away, and the flags otherwise */
    method CheckFull(d: Dir, may: MayQueue, batcher: bool) returns (refused: bool)
      requires congestionOn <= nrRequests
      modifies this`full, this`congested
      ensures refused == Refused(old(Value()), d, may, batcher)
      ensures Value() == (if refused then old(Value()) else Flagged(old(Value()), d)) && live == old(live)
    {
      if At(count, d) + 1 >= congestionOn {
        if At(count, d) + 1 >= nrRequests {
          if !At(full, d) {
            full := With(full, d, true);
          } else if may != Must && !batcher {
            return true;
          }
        }
        congested := With(congested, d, true);
      }
      return false;
    }

    /** The limit on batching queuers, and the count */
    method Admit(id: nat, d: Dir) returns (ok: bool)
      requires id !in live
      modifies this`count, this`starved, this`elvpriv, this`live
      ensures Value() == if AtLimit(old(Value()), d) then old(Value()) else Counted(old(Value()), id, d)
      ensures ok == (id in live)
    {
      if At(count, d) >= 3 * nrRequests / 2 {
        return false;
      }
      CountRequest(id, d);
      return true;
    }

    /** get_request, up to where the lock is dropped for the allocation */
    method GetRequest(id: nat, d: Dir, may: MayQueue, batcher: bool) returns (ok: bool)
      requires Inv(Value()) && id !in live
      modifies this`count, this`full, this`congested, this`starved, this`elvpriv, this`live
      ensures Value() == Get(old(Value()), id, d, may, batcher) && Inv(Value()) && ok == (id in live)
    {
      GetKeeps(Value(), id, d, may, batcher);
      if may == MayNot {
        MarkStarved(d);
        return false;
      }
      var refused := CheckFull(d, may, batcher);
      if refused {
        return false;
      }
      ok := Admit(id, d);
    }

    method CountRequest(id: nat, d: Dir)
      modifies this`count, this`starved, this`elvpriv, this`live
      ensures Value() == Counted(old(Value()), id, d)
    {
      count := With(count, d, At(count, d) + 1);
      starved := With(starved, d, false);
      var priv := !elvSwitch;
      if priv {
        elvpriv := elvpriv + 1;
      }
      live := live[id := Rq(d, priv, Allocating)];
    }

    method MarkStarved(d: Dir)
      modifies this`starved
      ensures Value() == Starve(old(Value()), d)
    {
      if At(count, d) == 0 {
        starved := With(starved, d, true);
      }
    }

    /** __freed_request */
    method Relax(d: Dir)
      modifies this`congested, this`full
      ensures Value() == Relaxed(old(Value()), d)
    {
      if At(count, d) < congestionOff {
        congested := With(congested, d, false);
      }
      if At(count, d) + 1 <= nrRequests {
        full := With(full, d, false);
      }
    }

    method Uncount(id: nat)
      requires id in live && At(count, live[id].dir) > 0 && (live[id].priv ==> elvpriv > 0)
      modifies this`count, this`elvpriv, this`live
      ensures Value() == Uncounted(old(Value()), id)
    {
      var d := live[id].dir;
      count := With(count, d, At(count, d) - 1);
      if live[id].priv {
        elvpriv := elvpriv - 1;
      }
      live := live - {id};
    }

    /** freed_request */
    method FreedRequest(id: nat)
      requires Inv(Value()) && id in live
      modifies this`count, this`elvpriv, this`live, this`congested, this`full
      ensures Value() == Freed(old(Value()), id) && Inv(Value())
    {
      FreedKeeps(Value(), id);
      DropIds(live, id);
      var d := live[id].dir;
      Uncount(id);
      Relax(d);
      if At(starved, Other(d)) {
        Relax(Other(d));
      }
    }

    /** The rest of get_request when the allocation fails */
    method AllocationFailed(id: nat)
      requires Inv(Value()) && id in live
      modifies this`count, this`elvpriv, this`live, this`congested, this`full, this`starved
      ensures Value() == Starve(Freed(old(Value()), id), old(live[id].dir)) && Inv(Value())
    {
      var d := live[id].dir;
      FreedRequest(id);
      StarveKeeps(Value(), d);
      MarkStarved(d);
    }

    method Readjust(d: Dir)
      modifies this`congested, this`full
      ensures Value() == Readjusted(old(Value()), d)
    {
      if At(count, d) >= congestionOn {
        congested := With(congested, d, true);
      } else if At(count, d) < congestionOff {
        congested := With(congested, d, false);
      }
      if At(count, d) >= nrRequests {
        full := With(full, d, true);
      } else if At(count, d) + 1 <= nrRequests {
        full := With(full, d, false);
      }
    }

    /** The new limit with its thresholds */
    method SetLimit(nr: nat)
      modifies this`nrRequests, this`congestionOn, this`congestionOff
      ensures Value() == old(Value()).(nr := nr, on := OnThreshold(nr), off := OffThreshold(nr))
    {
      nrRequests := nr;
      CongestionThreshold();
    }

    /** queue_requests_store */
    method RequestsStore(nr: nat)
      requires Inv(Value())
      modifies this`nrRequests, this`congestionOn, this`congestionOff, this`congested, this`full
      ensures Value() == Store(old(Value()), nr) && Inv(Value())
    {
      StoreKeeps(Value(), nr);
      SetLimit(if nr < MIN_RQ then MIN_RQ else nr);
      Readjust(Read);
      Readjust(Write);
    }

    /** __elv_add_request, as far as the scheduler is concerned */
    method AddRequest(id: nat, sorted: bool)
      requires Inv(Value()) && id in live
      modifies this`live
      ensures Value() == Inserted(old(Value()), id, sorted) && Inv(Value())
    {
      var place := Queued;
      if sorted && live[id].priv {
        place := Scheduled(elevator);
      }
      MovedKeeps(Value(), id, place);
      live := live[id := live[id].(place := place)];
    }

    /** The first lock section of elevator_switch */
    method SwitchStart()
      requires Inv(Value()) && !elvSwitch
      modifies this`elvSwitch, this`live, this`attached, this`veterans
      ensures Value() == Next(old(Value()), SwitchBegin) && Inv(Value())
    {
      NextKeeps(Value(), SwitchBegin);
      elvSwitch := true;
      attached := false;
      veterans := live.Keys;
      live := map id | id in live :: if live[id].place.Scheduled? then live[id].(place := Queued) else live[id];
    }

    /** One turn of the waiting loop of elevator_switch: the new scheduler is attached once elvpriv is zero */
    method TryAttach(e: nat) returns (done: bool)
      requires Inv(Value()) && elvSwitch && !attached && e != elevator
      modifies this`live, this`elevator, this`previous, this`attached
      ensures done == old(elvpriv == 0) && Inv(Value())
      ensures done ==> Value() == Next(old(Value()), SwitchAttach(e)) && forall id :: id in live ==> !live[id].priv
      ensures !done ==> Value() == Drained(old(Value()))
    {
      DrainedKeeps(Value());
      if elvpriv == 0 { NextKeeps(Value(), SwitchAttach(e)); }
      live := map id | id in live :: if live[id].place.Scheduled? then live[id].(place := Queued) else live[id];
      if elvpriv != 0 {
        return false;
      }
      previous := elevator;
      elevator := e;
      attached := true;
      return true;
    }
  }
}
