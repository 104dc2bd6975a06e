// The request list of a queue (get_request, freed_request, queue_requests_store of ll_rw_blk.c) together with the
// change of I/O scheduler (elevator_switch of elevator.c), under all interleavings of steps made with the queue lock
// held.
module RequestPool {
  import opened Directions
  import Runs

  const MIN_RQ: nat := 4

  /** Where a request is: being allocated with the lock dropped, allocated, with a scheduler, or past it. */
  datatype Place = Allocating | Held | Scheduled(elevator: nat) | Queued

  /** priv: the request carries data of the scheduler (REQ_ELVPRIV). */
  datatype Rq = Rq(dir: Dir, priv: bool, place: Place)

  datatype Pool = Pool(
    count: Two<nat>,
    full: Two<bool>,
    congested: Two<bool>,
    starved: Two<bool>,
    nr: nat,                      // nr_requests
    on: int,                      // nr_congestion_on
    off: int,                     // nr_congestion_off
    elvpriv: nat,
    live: map<nat, Rq>,           // all requests that have been counted
    elevator: nat,                // the scheduler in use
    switching: bool,              // QUEUE_FLAG_ELVSWITCH
    attached: bool,               // the new scheduler has been attached
    previous: nat,                // the scheduler to go back to if the switch fails
    veterans: set<nat>)           // the requests there were when the switch began

  // ---------------------------------------------------------------- thresholds

  /** nr_congestion_on */
  function OnThreshold(nr: nat): int {
    var n := nr - nr / 8 + 1;
    if n > nr then nr else n
  }

  /** nr_congestion_off */
  function OffThreshold(nr: nat): int {
    var n: int := nr - nr / 8 - nr / 16 - 1;
    if n < 1 then 1 else n
  }

  lemma {:induction false} Thresholds(nr: nat)
    requires nr >= 1
    ensures 1 <= OffThreshold(nr) <= OnThreshold(nr) <= nr
  {
  }

  // ---------------------------------------------------------------- get_request

  datatype MayQueue = MayNot | May | Must

  /** Full, and the caller has no right to go over. */
  predicate Refused(p: Pool, d: Dir, may: MayQueue, batcher: bool) {
    At(p.count, d) + 1 >= p.nr && At(p.full, d) && may != Must && !batcher
  }

  predicate AtLimit(p: Pool, d: Dir) { At(p.count, d) >= 3 * p.nr / 2 }

  /** The flags get_request sets on its way. */
  function Flagged(p: Pool, d: Dir): Pool {
    if At(p.count, d) + 1 >= p.on then
      var p1 := if At(p.count, d) + 1 >= p.nr then p.(full := With(p.full, d, true)) else p;
      p1.(congested := With(p1.congested, d, true))
    else p
  }

  /** The request is counted; it carries scheduler data unless a switch is on. */
  function Counted(p: Pool, id: nat, d: Dir): Pool {
    var priv := !p.switching;
    p.(count := With(p.count, d, At(p.count, d) + 1),
       starved := With(p.starved, d, false),
       elvpriv := if priv then p.elvpriv + 1 else p.elvpriv,
       live := p.live[id := Rq(d, priv, Allocating)])
  }

  /** Nothing to free will wake the caller: remember that it waits. */
  function Starve(p: Pool, d: Dir): Pool { if At(p.count, d) == 0 then p.(starved := With(p.starved, d, true)) else p }

  /** get_request up to where the lock is dropped. */
  function Get(p: Pool, id: nat, d: Dir, may: MayQueue, batcher: bool): Pool {
    if may == MayNot then Starve(p, d)
    else if Refused(p, d, may, batcher) then p
    else
      var p1 := Flagged(p, d);
      if AtLimit(p1, d) then p1 else Counted(p1, id, d)
  }

  // ---------------------------------------------------------------- freed_request

  /** __freed_request */
  function Relaxed(p: Pool, d: Dir): Pool {
    var p1 := if At(p.count, d) < p.off then p.(congested := With(p.congested, d, false)) else p;
    if At(p1.count, d) + 1 <= p1.nr then p1.(full := With(p1.full, d, false)) else p1
  }

  function Uncounted(p: Pool, id: nat): Pool
    requires id in p.live
  {
    var rq := p.live[id];
    p.(count := With(p.count, rq.dir, if At(p.count, rq.dir) > 0 then At(p.count, rq.dir) - 1 else 0),
       elvpriv := if rq.priv && p.elvpriv > 0 then p.elvpriv - 1 else p.elvpriv,
       live := p.live - {id})
  }

  /** The flags are looked at again, and those of the other direction if it is starved. */
  function Released(p: Pool, d: Dir): Pool {
    var p1 := Relaxed(p, d);
    if At(p1.starved, Other(d)) then Relaxed(p1, Other(d)) else p1
  }

  /** freed_request, for a request that goes */
  function Freed(p: Pool, id: nat): Pool {
    if id in p.live then Released(Uncounted(p, id), p.live[id].dir) else p
  }

  // ---------------------------------------------------------------- queue_requests_store

  function Readjusted(p: Pool, d: Dir): Pool {
    var p1 :=
      if At(p.count, d) >= p.on then p.(congested := With(p.congested, d, true))
      else if At(p.count, d) < p.off then p.(congested := With(p.congested, d, false))
      else p;
    if At(p1.count, d) >= p1.nr then p1.(full := With(p1.full, d, true)) else p1.(full := With(p1.full, d, false))
  }

  function Store(p: Pool, nr: nat): Pool {
    var n := if nr < MIN_RQ then MIN_RQ else nr;
    Readjusted(Readjusted(p.(nr := n, on := OnThreshold(n), off := OffThreshold(n)), Read), Write)
  }

  // ---------------------------------------------------------------- requests move, schedulers change

  function Moved(p: Pool, id: nat, place: Place): Pool {
    if id in p.live then p.(live := p.live[id := p.live[id].(place := place)]) else p
  }

  /** __elv_add_request: only a sorted request with scheduler data goes to the scheduler. */
  function Inserted(p: Pool, id: nat, sorted: bool): Pool {
    if id in p.live && sorted && p.live[id].priv then Moved(p, id, Scheduled(p.elevator)) else Moved(p, id, Queued)
  }

  /** elv_drain_elevator */
  function Drained(p: Pool): Pool {
    p.(live := map id | id in p.live ::
                 if p.live[id].place.Scheduled? then p.live[id].(place := Queued) else p.live[id])
  }

  datatype Step =
    | DoGet(id: nat, dir: Dir, may: MayQueue, batcher: bool)
    | AllocDone(id: nat)
    | AllocFailed(id: nat)
    | Insert(id: nat, sorted: bool)
    | Dispatch(id: nat)
    | Put(id: nat)
    | DoStore(nr: nat)
    | SwitchBegin
    | SwitchAttach(elevator: nat)
    | SwitchEnd(ok: bool)

  ghost predicate Enabled(p: Pool, s: Step) {
    match s
    case DoGet(id, _, _, _) => id !in p.live && id !in p.veterans
    case AllocDone(id) => id in p.live && p.live[id].place == Allocating
    case AllocFailed(id) => id in p.live && p.live[id].place == Allocating
    case Insert(id, _) => id in p.live && p.live[id].place == Held
    case Dispatch(id) => id in p.live && p.live[id].place.Scheduled?
    case Put(id) => id in p.live && (p.live[id].place == Held || p.live[id].place == Queued)
    case DoStore(_) => true
    case SwitchBegin => !p.switching
    case SwitchAttach(e) => p.switching && !p.attached && p.elvpriv == 0 && e != p.elevator
    case SwitchEnd(_) => p.switching && p.attached
  }

  function Next(p: Pool, s: Step): Pool {
    match s
    case DoGet(id, d, may, batcher) => Get(p, id, d, may, batcher)
    case AllocDone(id) => Moved(p, id, Held)
    case AllocFailed(id) => if id in p.live then Starve(Freed(p, id), p.live[id].dir) else p
    case Insert(id, sorted) => Inserted(p, id, sorted)
    case Dispatch(id) => Moved(p, id, Queued)
    case Put(id) => Freed(p, id)
    case DoStore(nr) => Store(p, nr)
    case SwitchBegin => Drained(p).(switching := true, attached := false, veterans := p.live.Keys)
    case SwitchAttach(e) => Drained(p).(previous := p.elevator, elevator := e, attached := true)
    case SwitchEnd(ok) =>
      p.(switching := false, attached := false, elevator := if ok then p.elevator else p.previous, veterans := {})
  }

  // ---------------------------------------------------------------- what every step keeps

  /** full and congested say what the count says, with hysteresis. */
  ghost predicate FlagsOk(count: nat, full: bool, congested: bool, nr: nat, on: int, off: int) {
    && (full <==> count >= nr)
    && (count >= on ==> congested)
    && (congested ==> count >= off)
  }

  ghost function Ids(live: map<nat, Rq>, d: Dir): set<nat> { set id | id in live && live[id].dir == d }

  ghost function PrivIds(live: map<nat, Rq>): set<nat> { set id | id in live && live[id].priv }

  /** The counts are the numbers of requests. */
  ghost predicate CountsOk(p: Pool) {
    p.count.read == |Ids(p.live, Read)| && p.count.write == |Ids(p.live, Write)| && p.elvpriv == |PrivIds(p.live)|
  }

  ghost predicate PoolOk(p: Pool) {
    && 1 <= p.off <= p.on <= p.nr
    && FlagsOk(p.count.read, p.full.read, p.congested.read, p.nr, p.on, p.off)
    && FlagsOk(p.count.write, p.full.write, p.congested.write, p.nr, p.on, p.off)
  }

  /**
   * Requests with a scheduler carry its data; while a switch is on only requests from before it carry any; and once the
   * new scheduler is attached none does.
   */
  ghost predicate SwitchOk(p: Pool) {
    && (forall id ::
          id in p.live && p.live[id].place.Scheduled? ==> p.live[id].priv && p.live[id].place.elevator == p.elevator)
    && (p.switching ==> forall id :: id in p.live && p.live[id].priv ==> id in p.veterans)
    && (p.attached ==> p.switching && forall id :: id in p.live ==> !p.live[id].priv)
    && (!p.switching ==> p.veterans == {})
  }

  ghost predicate Inv(p: Pool) { PoolOk(p) && CountsOk(p) && SwitchOk(p) }

  /** The flags are set in time for one request more, and do no harm if it is not allocated for want of room. */
  lemma {:induction false} FlagsRise(count: nat, full: bool, congested: bool, nr: nat, on: int, off: int)
    requires 1 <= off <= on <= nr && FlagsOk(count, full, congested, nr, on, off)
    ensures FlagsOk(count + 1, full || count + 1 >= nr, congested || count + 1 >= on, nr, on, off)
    ensures count >= 3 * nr / 2 ==> FlagsOk(count, full || count + 1 >= nr, congested || count + 1 >= on, nr, on, off)
  {
  }

  lemma {:induction false} FlaggedOk(p: Pool, id: nat, d: Dir)
    requires PoolOk(p)
    ensures AtLimit(p, d) ==> PoolOk(Flagged(p, d))
    ensures !AtLimit(p, d) ==> PoolOk(Counted(Flagged(p, d), id, d))
  {
    FlagsRise(At(p.count, d), At(p.full, d), At(p.congested, d), p.nr, p.on, p.off);
    match d
    case Read =>
    case Write =>
  }

  lemma {:induction false} RelaxedOk(p: Pool, d: Dir)
    requires 1 <= p.off <= p.on <= p.nr
    requires FlagsOk(At(p.count, Other(d)), At(p.full, Other(d)), At(p.congested, Other(d)), p.nr, p.on, p.off)
    requires FlagsOk(At(p.count, d), At(p.full, d), At(p.congested, d), p.nr, p.on, p.off)
             || FlagsOk(At(p.count, d) + 1, At(p.full, d), At(p.congested, d), p.nr, p.on, p.off)
    ensures PoolOk(Relaxed(p, d)) && Relaxed(p, d).count == p.count && Relaxed(p, d).starved == p.starved
    ensures Relaxed(p, d).nr == p.nr
  {
  }

  /** One less in direction d. */
  lemma {:induction false} ReleasedOk(p: Pool, d: Dir)
    requires 1 <= p.off <= p.on <= p.nr
    requires FlagsOk(At(p.count, Other(d)), At(p.full, Other(d)), At(p.congested, Other(d)), p.nr, p.on, p.off)
    requires FlagsOk(At(p.count, d) + 1, At(p.full, d), At(p.congested, d), p.nr, p.on, p.off)
    ensures PoolOk(Released(p, d))
  {
    RelaxedOk(p, d);
    if At(p.starved, Other(d)) { RelaxedOk(Relaxed(p, d), Other(d)); }
  }

  lemma {:induction false} FreedOk(p: Pool, id: nat)
    requires PoolOk(p) && id in p.live && At(p.count, p.live[id].dir) > 0
    ensures PoolOk(Freed(p, id))
  {
    ReleasedOk(Uncounted(p, id), p.live[id].dir);
  }

  lemma {:induction false} ReadjustedOk(p: Pool, d: Dir)
    requires 1 <= p.off <= p.on <= p.nr
    ensures var q := Readjusted(p, d);
            && q.count == p.count && q.nr == p.nr && q.on == p.on && q.off == p.off
            && FlagsOk(At(q.count, d), At(q.full, d), At(q.congested, d), q.nr, q.on, q.off)
            && At(q.full, Other(d)) == At(p.full, Other(d)) && At(q.congested, Other(d)) == At(p.congested, Other(d))
  {
  }

  lemma {:induction false} StoreOk(p: Pool, nr: nat)
    requires PoolOk(p)
    ensures PoolOk(Store(p, nr))
  {
    var n := if nr < MIN_RQ then MIN_RQ else nr;
    Thresholds(n);
    var q := p.(nr := n, on := OnThreshold(n), off := OffThreshold(n));
    ReadjustedOk(q, Read);
    ReadjustedOk(Readjusted(q, Read), Write);
  }

  // ---------------------------------------------------------------- counting

  lemma {:induction false} AddIds(live: map<nat, Rq>, id: nat, rq: Rq)
    requires id !in live
    ensures |Ids(live[id := rq], rq.dir)| == |Ids(live, rq.dir)| + 1
    ensures Ids(live[id := rq], Other(rq.dir)) == Ids(live, Other(rq.dir))
  {
    assert Ids(live[id := rq], rq.dir) == Ids(live, rq.dir) + {id};
  }

  lemma {:induction false} AddPrivIds(live: map<nat, Rq>, id: nat, rq: Rq)
    requires id !in live
    ensures |PrivIds(live[id := rq])| == if rq.priv then |PrivIds(live)| + 1 else |PrivIds(live)|
  {
    assert PrivIds(live[id := rq]) == if rq.priv then PrivIds(live) + {id} else PrivIds(live);
  }

  lemma {:induction false} DropIds(live: map<nat, Rq>, id: nat)
    requires id in live
    ensures |Ids(live, live[id].dir)| == |Ids(live - {id}, live[id].dir)| + 1
    ensures Ids(live - {id}, Other(live[id].dir)) == Ids(live, Other(live[id].dir))
    ensures |PrivIds(live)| == if live[id].priv then |PrivIds(live - {id})| + 1 else |PrivIds(live - {id})|
  {
    assert Ids(live, live[id].dir) == Ids(live - {id}, live[id].dir) + {id};
    assert PrivIds(live) == if live[id].priv then PrivIds(live - {id}) + {id} else PrivIds(live - {id});
  }

  /** Places do not matter to the counts. */
  ghost predicate SameButPlaces(a: map<nat, Rq>, b: map<nat, Rq>) {
    a.Keys == b.Keys && forall id :: id in a ==> a[id].dir == b[id].dir && a[id].priv == b[id].priv
  }

  lemma {:induction false} SameIds(a: map<nat, Rq>, b: map<nat, Rq>)
    requires SameButPlaces(a, b)
    ensures Ids(a, Read) == Ids(b, Read) && Ids(a, Write) == Ids(b, Write) && PrivIds(a) == PrivIds(b)
  {
  }

  // ---------------------------------------------------------------- each step

  lemma {:induction false} CountedKeeps(p: Pool, id: nat, d: Dir)
    requires CountsOk(p) && SwitchOk(p) && id !in p.live
    ensures CountsOk(Counted(p, id, d)) && SwitchOk(Counted(p, id, d))
  {
    AddIds(p.live, id, Rq(d, !p.switching, Allocating));
    AddPrivIds(p.live, id, Rq(d, !p.switching, Allocating));
  }

  /** These touch the flags only. */
  lemma {:induction false} FlagsOnly(p: Pool, d: Dir)
    ensures Flagged(p, d) == p.(full := Flagged(p, d).full, congested := Flagged(p, d).congested)
    ensures Relaxed(p, d) == p.(full := Relaxed(p, d).full, congested := Relaxed(p, d).congested)
    ensures Readjusted(p, d) == p.(full := Readjusted(p, d).full, congested := Readjusted(p, d).congested)
  {
  }

  lemma {:induction false} FlagsDoNotCount(p: Pool, full: Two<bool>, congested: Two<bool>)
    requires CountsOk(p) && SwitchOk(p)
    ensures CountsOk(p.(full := full, congested := congested)) && SwitchOk(p.(full := full, congested := congested))
  {
  }

  lemma {:induction false} GetKeeps(p: Pool, id: nat, d: Dir, may: MayQueue, batcher: bool)
    requires Inv(p) && id !in p.live
    ensures Inv(Get(p, id, d, may, batcher))
  {
    if may != MayNot && !Refused(p, d, may, batcher) {
      FlaggedOk(p, id, d);
      FlagsOnly(p, d);
      FlagsDoNotCount(p, Flagged(p, d).full, Flagged(p, d).congested);
      if !AtLimit(p, d) { CountedKeeps(Flagged(p, d), id, d); }
    }
  }

  /** Flags apart, freeing takes one request out. */
  lemma {:induction false} FreedFields(p: Pool, id: nat)
    requires id in p.live
    ensures var q := Freed(p, id); var u := Uncounted(p, id);
            && q.count == u.count && q.elvpriv == u.elvpriv && q.live == u.live && q.elevator == p.elevator
            && q.switching == p.switching && q.attached == p.attached && q.veterans == p.veterans && q.nr == p.nr
  {
    var d := p.live[id].dir;
    FlagsOnly(Uncounted(p, id), d);
    FlagsOnly(Relaxed(Uncounted(p, id), d), Other(d));
  }

  lemma {:induction false} FreedKeeps(p: Pool, id: nat)
    requires Inv(p) && id in p.live
    ensures Inv(Freed(p, id))
  {
    DropIds(p.live, id);
    FreedOk(p, id);
    FreedFields(p, id);
  }

  lemma {:induction false} StarveKeeps(p: Pool, d: Dir)
    requires Inv(p)
    ensures Inv(Starve(p, d))
  {
  }

  lemma {:induction false} MovedKeeps(p: Pool, id: nat, place: Place)
    requires Inv(p) && id in p.live && (place.Scheduled? ==> p.live[id].priv && place.elevator == p.elevator)
    ensures Inv(Moved(p, id, place))
  {
    SameIds(p.live, Moved(p, id, place).live);
  }

  lemma {:induction false} DrainedKeeps(p: Pool)
    requires Inv(p)
    ensures Inv(Drained(p)) && SameButPlaces(p.live, Drained(p).live) && forall id ::
            id in Drained(p).live ==> !Drained(p).live[id].place.Scheduled?
  {
    SameIds(p.live, Drained(p).live);
  }

  lemma {:induction false} StoreFields(p: Pool, nr: nat)
    ensures var q := Store(p, nr);
            && q.count == p.count && q.elvpriv == p.elvpriv && q.live == p.live && q.elevator == p.elevator
            && q.switching == p.switching && q.attached == p.attached && q.veterans == p.veterans
  {
    var n := if nr < MIN_RQ then MIN_RQ else nr;
    var q := p.(nr := n, on := OnThreshold(n), off := OffThreshold(n));
    FlagsOnly(q, Read);
    FlagsOnly(Readjusted(q, Read), Write);
  }

  lemma {:induction false} StoreKeeps(p: Pool, nr: nat)
    requires Inv(p)
    ensures Inv(Store(p, nr))
  {
    StoreOk(p, nr);
    StoreFields(p, nr);
  }

  /** When the new scheduler is attached, no request carries data of the old one. */
  lemma {:induction false} AttachClean(p: Pool)
    requires CountsOk(p) && p.elvpriv == 0
    ensures forall id :: id in p.live ==> !p.live[id].priv
  {
    assert PrivIds(p.live) == {};
    forall id | id in p.live ensures !p.live[id].priv {
      assert id !in PrivIds(p.live);
    }
  }

  lemma {:induction false} NextKeeps(p: Pool, s: Step)
    requires Inv(p) && Enabled(p, s)
    ensures Inv(Next(p, s))
  {
    match s
    case DoGet(id, d, may, batcher) => GetKeeps(p, id, d, may, batcher);
    case AllocDone(id) => MovedKeeps(p, id, Held);
    case AllocFailed(id) =>
      FreedKeeps(p, id);
      StarveKeeps(Freed(p, id), p.live[id].dir);
    case Insert(id, sorted) => MovedKeeps(p, id, if sorted && p.live[id].priv then Scheduled(p.elevator) else Queued);
    case Dispatch(id) => MovedKeeps(p, id, Queued);
    case Put(id) => FreedKeeps(p, id);
    case DoStore(nr) => StoreKeeps(p, nr);
    case SwitchBegin => DrainedKeeps(p);
    case SwitchAttach(e) =>
      DrainedKeeps(p);
      AttachClean(p);
    case SwitchEnd(ok) =>
  }

  // ---------------------------------------------------------------- runs

  /** A queue as blk_init_queue leaves it. */
  function Init(nr: nat, elevator: nat): Pool {
    Pool(Two(0, 0), Two(false, false), Two(false, false), Two(false, false), nr, OnThreshold(nr), OffThreshold(nr), 0,
         map[], elevator, false, false, elevator, {})
  }

  lemma {:induction false} InitOk(nr: nat, elevator: nat)
    requires nr >= MIN_RQ
    ensures Inv(Init(nr, elevator))
  {
    Thresholds(nr);
    assert Ids(map[], Read) == {} && Ids(map[], Write) == {} && PrivIds(map[]) == {};
  }

  ghost function Then(p: Pool, s: Step): Pool { if Enabled(p, s) then Next(p, s) else p }

  /** In every run the flags, the counts and the state of the switch stay right. */
  lemma {:induction false} AlwaysInv(p: Pool, steps: seq<Step>, n: nat)
    requires Inv(p) && n <= |steps|
    ensures Inv(Runs.After(Then, p, steps, n))
  {
    forall x, s ensures Inv(x) ==> Inv(Then(x, s)) {
      if Inv(x) && Enabled(x, s) { NextKeeps(x, s); }
    }
    Runs.Invariant(Then, Inv, p, steps, n);
  }

  /** No direction has more than half as many again as nr_requests. */
  ghost predicate Bounded(p: Pool) { p.count.read <= 3 * p.nr / 2 && p.count.write <= 3 * p.nr / 2 }

  lemma {:induction false} GetBounded(p: Pool, id: nat, d: Dir, may: MayQueue, batcher: bool)
    requires Bounded(p)
    ensures Bounded(Get(p, id, d, may, batcher)) && Get(p, id, d, may, batcher).nr == p.nr
  {
    FlagsOnly(p, d);
  }

  lemma {:induction false} FreedBounded(p: Pool, id: nat)
    requires Bounded(p) && id in p.live
    ensures Bounded(Freed(p, id)) && Freed(p, id).nr == p.nr
  {
    FreedFields(p, id);
  }

  lemma {:induction false} NextBounded(p: Pool, s: Step)
    requires Enabled(p, s) && !s.DoStore? && Bounded(p)
    ensures Bounded(Next(p, s)) && Next(p, s).nr == p.nr
  {
    match s
    case DoGet(id, d, may, batcher) => GetBounded(p, id, d, may, batcher);
    case AllocFailed(id) => FreedBounded(p, id);
    case Put(id) => FreedBounded(p, id);
    case _ =>
  }

  ghost function ThenFixed(p: Pool, s: Step): Pool { if s.DoStore? then p else Then(p, s) }

  /** As long as nr_requests is not changed, the bound holds throughout. */
  lemma {:induction false} AlwaysBounded(p: Pool, steps: seq<Step>, n: nat)
    requires Inv(p) && Bounded(p) && n <= |steps|
    ensures Bounded(Runs.After(ThenFixed, p, steps, n))
  {
    var holds := (x: Pool) => Inv(x) && Bounded(x);
    forall x, s ensures holds(x) ==> holds(ThenFixed(x, s)) {
      if holds(x) && Enabled(x, s) && !s.DoStore? {
        NextKeeps(x, s);
        NextBounded(x, s);
      }
    }
    Runs.Invariant(ThenFixed, holds, p, steps, n);
  }

  // ---------------------------------------------------------------- the change of scheduler

  /**
   * While a switch is on, a request enters a scheduler exactly if it is inserted sorted, was allocated before the
   * switch began, and the new scheduler is not attached yet; the scheduler it enters is then the old one.
   */
  lemma {:induction false} EntersWhileSwitching(p: Pool, id: nat, sorted: bool)
    requires Inv(p) && p.switching && Enabled(p, Insert(id, sorted))
    ensures Next(p, Insert(id, sorted)).live[id].place.Scheduled? <==> sorted && p.live[id].priv
    ensures Next(p, Insert(id, sorted)).live[id].place.Scheduled? ==>
              id in p.veterans && !p.attached && Next(p, Insert(id, sorted)).live[id].place.elevator == p.elevator
  {
  }

  /** From the attachment of the new scheduler to the end of the switch nothing is in either scheduler, or enters
      one. */
  lemma {:induction false} NoneEntersAttached(p: Pool, id: nat, sorted: bool)
    requires Inv(p) && p.attached
    ensures forall r :: r in p.live ==> !p.live[r].place.Scheduled?
    ensures Enabled(p, Insert(id, sorted)) ==> Next(p, Insert(id, sorted)).live[id].place == Queued
  {
  }

  /** Requests allocated while a switch is on never carry scheduler data. */
  lemma {:induction false} NewcomersPlain(p: Pool, id: nat, d: Dir, may: MayQueue, batcher: bool)
    requires p.switching && id !in p.live && id in Get(p, id, d, may, batcher).live
    ensures !Get(p, id, d, may, batcher).live[id].priv
  {
    FlagsOnly(p, d);
  }

  lemma {:induction false} AfterNext(p: Pool, steps: seq<Step>, n: nat)
    requires n < |steps|
    ensures Runs.After(Then, p, steps, n + 1) == Then(Runs.After(Then, p, steps, n), steps[n])
  {
  }

  lemma {:induction false} FourSteps(p: Pool, steps: seq<Step>)
    requires |steps| == 4
    ensures Runs.After(Then, p, steps, 4) == Then(Then(Then(Then(p, steps[0]), steps[1]), steps[2]), steps[3])
  {
    AfterNext(p, steps, 0);
    AfterNext(p, steps, 1);
    AfterNext(p, steps, 2);
    AfterNext(p, steps, 3);
  }

  /** That no request enters a scheduler during a whole switch is too much to ask: one allocated before it still
      does. */
  lemma {:induction false} VeteranEnters(nr: nat, elevator: nat, id: nat)
    requires nr >= 8
    ensures var steps := [DoGet(id, Read, May, false), AllocDone(id), SwitchBegin, Insert(id, true)];
            var p := Runs.After(Then, Init(nr, elevator), steps, 4);
            p.switching && id in p.live && p.live[id].place == Scheduled(elevator)
  {
    var steps := [DoGet(id, Read, May, false), AllocDone(id), SwitchBegin, Insert(id, true)];
    var p0 := Init(nr, elevator);
    var p1 := Then(p0, steps[0]);
    assert p1 == Counted(Flagged(p0, Read), id, Read);
    FlagsOnly(p0, Read);
    assert p1.live == map[id := Rq(Read, true, Allocating)];
    var p2 := Then(p1, steps[1]);
    assert p2.live == map[id := Rq(Read, true, Held)];
    var p3 := Then(p2, steps[2]);
    assert p3.live[id] == Rq(Read, true, Held) && p3.switching && p3.elevator == elevator;
    var p4 := Then(p3, steps[3]);
    assert p4.live[id].place == Scheduled(elevator);
    FourSteps(p0, steps);
  }
}
