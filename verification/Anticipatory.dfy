// as-iosched.c: batches of the anticipatory scheduler, and what they say about the requests in flight.
module Anticipatory {
  import opened Lists
  import Runs

  type Rq = nat

  /** REQ_SYNC and REQ_ASYNC */
  datatype Kind = Sync | Async

  function Flip(k: Kind): Kind { if k == Sync then Async else Sync }

  /** The part of struct as_data that batches depend on, with the requests queued and those moved to dispatch. */
  datatype As = As(
    batch: Kind,                  // batch_data_dir
    changed: bool,                // changed_batch
    newBatch: bool,               // new_batch
    idled: bool,                  // write_batch_idled
    writesLeft: nat,              // current_write_count
    nr: int,                      // nr_dispatched
    waiting: bool,                // antic_status is ANTIC_WAIT_REQ or ANTIC_WAIT_NEXT
    sync: seq<Rq>,                // fifo_list[REQ_SYNC]
    async: seq<Rq>,               // fifo_list[REQ_ASYNC]
    flight: set<Rq>,              // moved to dispatch and not completed
    kind: map<Rq, Kind>)

  function Fifo(s: As, k: Kind): seq<Rq> { if k == Sync then s.sync else s.async }

  /** What clocks, the sorted trees and the process statistics contribute to one dispatch call. */
  datatype Now = Now(
    late: bool,                   // the batch is past current_batch_expires
    expired: Kind -> bool,        // as_fifo_expired, were the FIFO not empty
    next: Kind -> Rq,             // next_rq, where something is queued
    anticipates: bool,            // antic_expire is not zero
    canWait: bool,                // as_can_anticipate
    batchSize: nat)               // write_batch_count

  function FifoExpired(s: As, now: Now, k: Kind): bool { |Fifo(s, k)| > 0 && now.expired(k) }

  /** as_batch_expired */
  predicate BatchExpired(s: As, now: Now) {
    !s.changed && !s.newBatch && (now.late || (s.batch == Async && s.writesLeft == 0))
  }

  /** as_move_to_dispatch */
  function Move(s: As, r: Rq, k: Kind): As {
    s.(waiting := false,
       writesLeft := if k == Async && s.writesLeft != 0 then s.writesLeft - 1 else s.writesLeft,
       sync := if k == Sync then Without(s.sync, r) else s.sync,
       async := if k == Async then Without(s.async, r) else s.async,
       flight := s.flight + {r},
       nr := s.nr + 1)
  }

  /** What a call settles on before the last check: nothing, or a request of the batch's direction. */
  datatype Pick = Nothing(s: As) | Chosen(s: As, r: Rq)

  /** dispatch_request: an expired request of the direction goes first. */
  function Preferred(s: As, now: Now, r: Rq): Pick {
    if FifoExpired(s, now, s.batch) then Chosen(s, Fifo(s, s.batch)[0]) else Chosen(s, r)
  }

  /** A write batch that runs out of work cannot be timed. */
  function Noted(s: As): As {
    if s.batch == Async && |s.sync| == 0 && (s.writesLeft == 0 || |s.async| == 0) then s.(idled := true) else s
  }

  predicate StillRunning(s: As, now: Now) { !(|s.sync| > 0 && |s.async| > 0 && BatchExpired(s, now)) }

  /** The batch goes on, or waits for a request it anticipates. */
  function Continued(s: As, now: Now): Pick
    requires |Fifo(s, s.batch)| > 0
  {
    if s.batch == Sync && now.anticipates && FifoExpired(s, now, Sync) then Chosen(s, s.sync[0])
    else if s.batch == Sync && now.anticipates && now.canWait then Nothing(s.(waiting := true))
    else Preferred(s, now, now.next(s.batch))
  }

  /** A new direction is selected. */
  function Selected(s: As, now: Now): Pick
    requires |s.sync| > 0 || |s.async| > 0
  {
    if |s.sync| > 0 && !(|s.async| > 0 && s.batch == Sync) then
      var s1 := s.(changed := if s.batch == Async then true else s.changed, batch := Sync);
      Preferred(s1, now, s.sync[0])
    else
      var s1 := s.(changed := if s.batch == Sync then true else s.changed,
                   newBatch := if s.batch == Sync then false else s.newBatch,
                   batch := Async, writesLeft := now.batchSize, idled := false);
      Preferred(s1, now, now.next(Async))
  }

  predicate Idle(s: As) { (|s.sync| == 0 && |s.async| == 0) || s.waiting || s.changed }

  /** Anticipation may also begin when nothing of the batch's direction is queued. */
  function Picked(s: As, now: Now): Pick
    requires |s.sync| > 0 || |s.async| > 0
  {
    if StillRunning(s, now) && |Fifo(s, s.batch)| > 0 then Continued(s, now)
    else if StillRunning(s, now) && s.batch == Sync && now.anticipates && now.canWait then Nothing(s.(waiting := true))
    else Selected(s, now)
  }

  /** The last part of as_dispatch_request: a changed batch waits until nothing is in flight. */
  function Settled(p: Pick): As {
    match p
    case Nothing(s) => s
    case Chosen(s, r) =>
      if s.changed && s.nr != 0 then s
      else
        var s1 :=
          if s.changed then s.(changed := false, newBatch := if s.batch == Async then s.newBatch else true)
          else s;
        Move(s1, r, s1.batch)
  }

  /** as_dispatch_request without force. */
  function Dispatch(s: As, now: Now): As {
    var s1 := Noted(s);
    if Idle(s1) then s1 else Settled(Picked(s1, now))
  }

  /** as_completed_request */
  function Completed(s: As, r: Rq): As {
    var s1 :=
      if s.changed && s.nr == 1 then s.(changed := false, newBatch := if s.batch == Sync then true else s.newBatch)
      else s;
    var s2 := s1.(nr := s1.nr - 1, flight := s1.flight - {r});
    if s2.newBatch && r in s2.kind && s2.kind[r] == s2.batch then s2.(newBatch := false) else s2
  }

  /** as_add_rq_rb: queued requests of the same sector and direction make room. */
  function MoveEach(s: As, rs: seq<Rq>, k: Kind): As
    decreases rs
  {
    if |rs| == 0 then s else MoveEach(Move(s, rs[0], k), rs[1..], k)
  }

  /** as_add_request once there is room for the request. */
  function Added(s: As, r: Rq, k: Kind): As {
    s.(kind := s.kind[r := k],
       sync := if k == Sync then s.sync + [r] else s.sync,
       async := if k == Async then s.async + [r] else s.async)
  }

  lemma {:induction false} WithoutNoLonger(q: seq<Rq>, r: Rq)
    ensures |Without(q, r)| <= |q|
  {
    if |q| > 0 { WithoutNoLonger(q[1..], r); }
  }

  lemma {:induction false} WithoutShorter(q: seq<Rq>)
    requires |q| > 0
    ensures |Without(q, q[0])| < |q|
  {
    WithoutNoLonger(q[1..], q[0]);
  }

  /** The while loops of a forced dispatch: everything queued in a direction is moved. */
  function MoveAll(s: As, k: Kind): As
    decreases |Fifo(s, k)|
  {
    if |Fifo(s, k)| == 0 then s
    else
      WithoutShorter(Fifo(s, k));
      MoveAll(Move(s, Fifo(s, k)[0], k), k)
  }

  /** as_dispatch_request with force */
  function Forced(s: As): As { MoveAll(MoveAll(s.(batch := Sync, changed := false, newBatch := false), Sync), Async) }

  // ---------------------------------------------------------------- directions are not mixed in flight

  /** The direction of everything in flight: that of the batch, or of the one before while a change is pending. */
  function FlightKind(s: As): Kind { if s.changed then Flip(s.batch) else s.batch }

  ghost predicate Queued(q: seq<Rq>, kind: map<Rq, Kind>, k: Kind, flight: set<Rq>) {
    forall r :: r in q ==> r in kind && kind[r] == k && r !in flight
  }

  ghost predicate InFlight(flight: set<Rq>, kind: map<Rq, Kind>, k: Kind) {
    forall r :: r in flight ==> r in kind && kind[r] == k
  }

  /** Between calls: one direction in flight, counted, and something in flight while a change is pending. */
  ghost predicate Inv(s: As) {
    && Queued(s.sync, s.kind, Sync, s.flight) && Queued(s.async, s.kind, Async, s.flight)
    && InFlight(s.flight, s.kind, FlightKind(s)) && s.nr == |s.flight|
    && (s.changed ==> s.nr >= 1)
  }

  /** next_rq names a queued request wherever there is one. */
  ghost predicate Sensible(s: As, now: Now) {
    (|s.sync| > 0 ==> now.next(Sync) in s.sync) && (|s.async| > 0 ==> now.next(Async) in s.async)
  }

  lemma {:induction false} MoveKeeps(s: As, r: Rq)
    requires Inv(s) && r in s.kind && r !in s.flight && s.kind[r] == s.batch && !s.changed
    ensures Inv(Move(s, r, s.batch))
  {
    WithoutMembers(Fifo(s, s.batch), r);
  }

  /** What is in flight stays right when the batch's direction is flipped and the change is marked. */
  ghost predicate Choice(p: Pick) {
    match p
    case Nothing(s) => Inv(s)
    case Chosen(s, r) =>
      && Queued(s.sync, s.kind, Sync, s.flight) && Queued(s.async, s.kind, Async, s.flight)
      && InFlight(s.flight, s.kind, FlightKind(s)) && s.nr == |s.flight|
      && r in Fifo(s, s.batch)
  }

  lemma {:induction false} ContinuedChoice(s: As, now: Now)
    requires Inv(s) && Sensible(s, now) && !s.changed && |Fifo(s, s.batch)| > 0
    ensures Choice(Continued(s, now))
  {
  }

  lemma {:induction false} SelectedChoice(s: As, now: Now)
    requires Inv(s) && Sensible(s, now) && !s.changed && (|s.sync| > 0 || |s.async| > 0)
    ensures Choice(Selected(s, now))
  {
  }

  lemma {:induction false} PickedChoice(s: As, now: Now)
    requires Inv(s) && Sensible(s, now) && !s.changed && (|s.sync| > 0 || |s.async| > 0)
    ensures Choice(Picked(s, now))
  {
    if StillRunning(s, now) && |Fifo(s, s.batch)| > 0 {
      ContinuedChoice(s, now);
    } else {
      SelectedChoice(s, now);
    }
  }

  lemma {:induction false} SettledKeeps(p: Pick)
    requires Choice(p)
    ensures Inv(Settled(p))
  {
    if p.Chosen? && (!p.s.changed || p.s.nr == 0) {
      var s := p.s;
      var s1 :=
        if s.changed then s.(changed := false, newBatch := if s.batch == Async then s.newBatch else true)
        else s;
      assert s.changed ==> s.flight == {};
      assert Inv(s1);
      MoveKeeps(s1, p.r);
    }
  }

  /** A dispatch call never mixes directions in flight. */
  lemma {:induction false} DispatchKeeps(s: As, now: Now)
    requires Inv(s) && Sensible(s, now)
    ensures Inv(Dispatch(s, now))
  {
    var s1 := Noted(s);
    if !Idle(s1) {
      PickedChoice(s1, now);
      SettledKeeps(Picked(s1, now));
    }
  }

  /** A completion keeps the count, and ends a pending change with the last request of the old batch. */
  lemma {:induction false} CompletedKeeps(s: As, r: Rq)
    requires Inv(s) && r in s.flight
    ensures Inv(Completed(s, r)) && Completed(s, r).nr == s.nr - 1
    ensures s.nr == 1 ==> !Completed(s, r).changed
  {
    if s.nr == 1 {
      assert |s.flight - {r}| == 0;
      assert s.flight - {r} == {};
    }
  }

  lemma {:induction false} AddedKeeps(s: As, r: Rq, k: Kind)
    requires Inv(s) && r !in s.kind
    ensures Inv(Added(s, r, k))
  {
  }

  /** With nothing in flight no change is pending: a pending change ends when what is in flight has completed. */
  lemma {:induction false} ChangeEnds(s: As)
    requires Inv(s) && s.nr == 0
    ensures !s.changed && s.flight == {}
  {
  }

  // ---------------------------------------------------------------- runs

  datatype Step =
    | Add(r: Rq, k: Kind)
    | Alias(r: Rq, k: Kind)       // as_add_rq_rb moves a queued request of the same sector and direction
    | Call(now: Now)
    | Force
    | Complete(r: Rq)
    | Leave(r: Rq)                // merged into another request
    | StopWaiting                 // the anticipation timer, or a request that ends the wait

  ghost predicate Enabled(s: As, step: Step) {
    match step
    case Add(r, _) => r !in s.kind
    case Alias(r, k) => r in Fifo(s, k)
    case Call(now) => Sensible(s, now)
    case Force => true
    case Complete(r) => r in s.flight
    case Leave(r) => r in s.kind && r !in s.flight
    case StopWaiting => true
  }

  ghost function Next(s: As, step: Step): As {
    match step
    case Add(r, k) => Added(s, r, k)
    case Alias(r, k) => Move(s, r, k)
    case Call(now) => Dispatch(s, now)
    case Force => Forced(s)
    case Complete(r) => Completed(s, r)
    case Leave(r) => s.(sync := Without(s.sync, r), async := Without(s.async, r))
    case StopWaiting => s.(waiting := false)
  }

  ghost function Then(s: As, step: Step): As { if Enabled(s, step) then Next(s, step) else s }

  /** What bypasses the batches fits what is in flight: an alias has its direction, and a forced dispatch finds nothing
      asynchronous, queued or in flight. */
  ghost predicate InStep(s: As, step: Step) {
    match step
    case Alias(r, k) => k == FlightKind(s)
    case Force => s.async == [] && (s.flight == {} || FlightKind(s) == Sync)
    case _ => true
  }

  lemma {:induction false} AliasKeeps(s: As, r: Rq, k: Kind)
    requires Inv(s) && r in Fifo(s, k)
    ensures Inv(Move(s, r, k)) <==> k == FlightKind(s)
  {
    WithoutMembers(Fifo(s, k), r);
    var s' := Move(s, r, k);
    assert r in s'.flight && s'.kind[r] == k;
    assert FlightKind(s') == FlightKind(s);
  }

  lemma {:induction false} MoveAllKeeps(s: As)
    requires Inv(s) && !s.changed && s.batch == Sync
    ensures Inv(MoveAll(s, Sync)) && MoveAll(s, Sync).async == s.async
    decreases |s.sync|
  {
    if |s.sync| > 0 {
      AliasKeeps(s, s.sync[0], Sync);
      WithoutShorter(s.sync);
      MoveAllKeeps(Move(s, s.sync[0], Sync));
    }
  }

  lemma {:induction false} ForceKeeps(s: As)
    requires Inv(s) && InStep(s, Force)
    ensures Inv(Forced(s))
  {
    MoveAllKeeps(s.(batch := Sync, changed := false, newBatch := false));
  }

  lemma {:induction false} LeaveKeeps(s: As, r: Rq)
    requires Inv(s) && r !in s.flight
    ensures Inv(s.(sync := Without(s.sync, r), async := Without(s.async, r)))
  {
    WithoutMembers(s.sync, r);
    WithoutMembers(s.async, r);
  }

  lemma {:induction false} ThenKeeps(s: As, step: Step)
    requires Inv(s) && InStep(s, step)
    ensures Inv(Then(s, step))
  {
    if Enabled(s, step) {
      match step
      case Add(r, k) => AddedKeeps(s, r, k);
      case Alias(r, k) => AliasKeeps(s, r, k);
      case Call(now) => DispatchKeeps(s, now);
      case Force => ForceKeeps(s);
      case Complete(r) => CompletedKeeps(s, r);
      case Leave(r) => LeaveKeeps(s, r);
      case StopWaiting =>
    }
  }

  /** Aliases and forced dispatches fit what is in flight throughout the first n steps of a run. */
  ghost predicate InStepTo(s: As, steps: seq<Step>, n: nat)
    requires n <= |steps|
  {
    forall i {:trigger steps[i]} :: 0 <= i < n ==> InStep(Runs.After(Then, s, steps, i), steps[i])
  }

  /** Requests of both directions are in flight. */
  ghost predicate Mixed(s: As) {
    exists q, r :: q in s.flight && r in s.flight && q in s.kind && r in s.kind && s.kind[q] != s.kind[r]
  }

  /** In every run whose aliases and forced dispatches fit, requests in flight are of one direction, the one the state
      says. */
  lemma {:induction false} NeverMixed(s: As, steps: seq<Step>, n: nat)
    requires Inv(s) && n <= |steps| && InStepTo(s, steps, n)
    ensures Inv(Runs.After(Then, s, steps, n)) && !Mixed(Runs.After(Then, s, steps, n))
  {
    if n > 0 {
      NeverMixed(s, steps, n - 1);
      assert InStep(Runs.After(Then, s, steps, n - 1), steps[n - 1]);
      ThenKeeps(Runs.After(Then, s, steps, n - 1), steps[n - 1]);
    }
  }

  /** A new batch is one of reads whose change is over, so the warnings on new_batch never fire; in every run. */
  ghost predicate Timed(s: As) { s.newBatch ==> s.batch == Sync && !s.changed }

  lemma {:induction false} MoveAllTimed(s: As, k: Kind)
    requires Timed(s)
    ensures Timed(MoveAll(s, k))
    decreases |Fifo(s, k)|
  {
    if |Fifo(s, k)| > 0 {
      WithoutShorter(Fifo(s, k));
      MoveAllTimed(Move(s, Fifo(s, k)[0], k), k);
    }
  }

  lemma {:induction false} DispatchTimed(s: As, now: Now)
    requires Timed(s)
    ensures Timed(Dispatch(s, now))
  {
    var s1 := Noted(s);
    if !Idle(s1) {
      var p := Picked(s1, now);
      assert Timed(p.s);
      if p.Chosen? && p.s.changed && p.s.nr == 0 {
        assert Timed(p.s.(changed := false, newBatch := p.s.batch == Sync));
      }
    }
  }

  lemma {:induction false} ThenTimed(s: As, step: Step)
    requires Timed(s)
    ensures Timed(Then(s, step))
  {
    if Enabled(s, step) {
      match step
      case Call(now) => DispatchTimed(s, now);
      case Force =>
        var s1 := s.(batch := Sync, changed := false, newBatch := false);
        MoveAllTimed(s1, Sync);
        MoveAllTimed(MoveAll(s1, Sync), Async);
      case _ =>
    }
  }

  lemma {:induction false} AlwaysTimed(s: As, steps: seq<Step>, n: nat)
    requires Timed(s) && n <= |steps|
    ensures Timed(Runs.After(Then, s, steps, n))
  {
    forall x, e ensures Timed(x) ==> Timed(Then(x, e)) {
      if Timed(x) { ThenTimed(x, e); }
    }
    Runs.Invariant(Then, Timed, s, steps, n);
  }

  // ---------------------------------------------------------------- mixing

  /** Moving an alias mixes directions at once exactly if something of the other direction is in flight. */
  lemma {:induction false} AliasExact(s: As, r: Rq, k: Kind)
    requires Inv(s) && r in Fifo(s, k)
    ensures Mixed(Move(s, r, k)) <==> s.flight != {} && k != FlightKind(s)
    ensures Inv(Move(s, r, k)) <==> k == FlightKind(s)
  {
    AliasKeeps(s, r, k);
    var s' := Move(s, r, k);
    assert r in s'.flight && s'.kind[r] == k;
    if s.flight != {} && k != FlightKind(s) {
      var q :| q in s.flight;
      assert q in s'.flight && s'.kind[q] != s'.kind[r];
    }
  }

  ghost function Last(s: As, steps: seq<Step>): As { Runs.After(Then, s, steps, |steps|) }

  lemma {:induction false} AfterOn(s: As, step: Step, steps: seq<Step>, n: nat)
    requires n <= |steps|
    ensures Runs.After(Then, s, [step] + steps, n + 1) == Runs.After(Then, Then(s, step), steps, n)
  {
    if n > 0 {
      AfterOn(s, step, steps, n - 1);
      assert ([step] + steps)[n] == steps[n - 1];
    } else {
      assert Runs.After(Then, s, [step] + steps, n) == s;
    }
  }

  lemma {:induction false} LastOn(s: As, step: Step, steps: seq<Step>)
    ensures Last(s, [step] + steps) == Last(Then(s, step), steps)
  {
    AfterOn(s, step, steps, |steps|);
  }

  /** Something against the batch is in flight, nothing waits, and nothing else of that direction is queued. */
  ghost predicate Stray(s: As, r: Rq) {
    && !s.changed && !s.waiting && r in s.flight && r in s.kind && s.kind[r] == Flip(s.batch)
    && Queued(s.sync, s.kind, Sync, s.flight) && Queued(s.async, s.kind, Async, s.flight)
  }

  ghost function Plainly(s: As): Now {
    Now(false, _ => false, k => if |Fifo(s, k)| > 0 then Fifo(s, k)[0] else 0, false, false, 0)
  }

  /** The batch goes on, and mixes directions. */
  lemma {:induction false} GoesOn(s: As, r: Rq)
    requires Stray(s, r) && |Fifo(s, s.batch)| > 0 && |Fifo(s, Flip(s.batch))| == 0
    ensures Mixed(Then(s, Call(Plainly(s))))
  {
    var q := Fifo(s, s.batch)[0];
    var s1 := Noted(s);
    assert Picked(s1, Plainly(s)) == Chosen(s1, q);
    var s' := Then(s, Call(Plainly(s)));
    assert s' == Move(s1, q, s.batch);
    assert q in s'.flight && r in s'.flight && s'.kind[q] != s'.kind[r];
  }

  lemma {:induction false} FreshId(ids: set<nat>) returns (r: nat)
    ensures forall i :: i in ids ==> i < r
  {
    r := 0;
    if ids != {} {
      var i :| i in ids;
      r := FreshId(ids - {i});
      if r <= i { r := i + 1; }
      assert forall j :: j in ids ==> j == i || j in ids - {i};
    }
  }

  /** The queue empties of the other direction, a request of the batch's own comes, and a call dispatches it. */
  lemma {:induction false} StrayMixes(s: As, r: Rq) returns (steps: seq<Step>)
    requires Stray(s, r)
    ensures Mixed(Last(s, steps))
    decreases |Fifo(s, Flip(s.batch))|, if |Fifo(s, s.batch)| == 0 then 1 else 0
  {
    var other := Fifo(s, Flip(s.batch));
    var step: Step, rest: seq<Step>;
    if |other| > 0 {
      step := Leave(other[0]);
      WithoutMembers(s.sync, other[0]);
      WithoutMembers(s.async, other[0]);
      WithoutShorter(other);
      rest := StrayMixes(Then(s, step), r);
    } else if |Fifo(s, s.batch)| == 0 {
      var q := FreshId(s.kind.Keys + s.flight);
      step := Add(q, s.batch);
      rest := StrayMixes(Then(s, step), r);
    } else {
      step, rest := Call(Plainly(s)), [];
      GoesOn(s, r);
    }
    LastOn(s, step, rest);
    steps := [step] + rest;
  }

  /** A list of aliases, each queued when its turn comes. */
  ghost predicate Aliases(s: As, rs: seq<Rq>, k: Kind)
    decreases rs
  {
    |rs| > 0 ==> rs[0] in Fifo(s, k) && Aliases(Move(s, rs[0], k), rs[1..], k)
  }

  lemma {:induction false} MoveEachKeeps(s: As, rs: seq<Rq>, k: Kind)
    requires Inv(s) && Aliases(s, rs, k) && (rs == [] || k == FlightKind(s))
    ensures Inv(MoveEach(s, rs, k)) && MoveEach(s, rs, k).kind == s.kind
    decreases rs
  {
    if |rs| > 0 {
      AliasKeeps(s, rs[0], k);
      MoveEachKeeps(Move(s, rs[0], k), rs[1..], k);
    }
  }

  /** The condition on aliases is needed: a move that does not meet it mixes directions, at once or later. */
  lemma {:induction false} AliasNeeded(s: As, r: Rq, k: Kind) returns (steps: seq<Step>)
    requires Inv(s) && r in Fifo(s, k) && k != FlightKind(s)
    ensures Mixed(Last(Then(s, Alias(r, k)), steps))
  {
    AliasExact(s, r, k);
    if s.flight != {} {
      steps := [];
    } else {
      WithoutMembers(Fifo(s, k), r);
      steps := StrayMixes(Move(s, r, k), r);
    }
  }

  ghost const START := As(Sync, false, false, false, 0, 0, false, [], [], {}, map[])

  /** What a forced dispatch leaves: nothing queued, all of it in flight, and a batch of reads. */
  lemma {:induction false} MovedAll(s: As, k: Kind)
    ensures var s' := MoveAll(s, k);
            && Fifo(s', k) == [] && Fifo(s', Flip(k)) == Fifo(s, Flip(k)) && s'.kind == s.kind
            && s'.batch == s.batch && s'.changed == s.changed && (s'.waiting ==> s.waiting)
            && s.flight <= s'.flight && forall r :: r in Fifo(s, k) ==> r in s'.flight
    decreases |Fifo(s, k)|
  {
    if |Fifo(s, k)| > 0 {
      var r := Fifo(s, k)[0];
      WithoutShorter(Fifo(s, k));
      WithoutMembers(Fifo(s, k), r);
      MovedAll(Move(s, r, k), k);
    }
  }

  /** So is the condition on a forced dispatch. */
  lemma {:induction false} ForceNeeded(s: As) returns (steps: seq<Step>)
    requires Inv(s) && !InStep(s, Force)
    ensures Mixed(Last(Then(s, Force), steps))
  {
    var s1 := s.(batch := Sync, changed := false, newBatch := false);
    MovedAll(s1, Sync);
    MovedAll(MoveAll(s1, Sync), Async);
    var r :| (s.async != [] && r == s.async[0]) || (s.async == [] && r in s.flight);
    var s2 := Then(s, Force);
    steps := StrayMixes(s2.(waiting := false), r);
    LastOn(s2, StopWaiting, steps);
    steps := [StopWaiting] + steps;
  }

  lemma {:induction false} FourSteps(s: As, a: Step, b: Step, c: Step, d: Step)
    ensures Last(s, [a, b, c, d]) == Then(Then(Then(Then(s, a), b), c), d)
  {
    assert [a, b, c, d] == [a] + [b, c, d] && [b, c, d] == [b] + [c, d] && [c, d] == [c] + [d] && [d] == [d] + [];
    LastOn(s, a, [b, c, d]);
    LastOn(Then(s, a), b, [c, d]);
    LastOn(Then(Then(s, a), b), c, [d]);
    LastOn(Then(Then(Then(s, a), b), c), d, []);
  }

  lemma {:induction false} ReadGoes(s: As, q: Rq, now: Now)
    requires s == START && !now.expired(Sync) && now.next(Sync) == q && !now.anticipates
    ensures var s' := Then(Then(s, Add(q, Sync)), Call(now)); q in s'.flight && s'.kind == map[q := Sync]
  {
    var s1 := Added(s, q, Sync);
    assert s1 == s.(sync := [q], kind := map[q := Sync]);
    assert Picked(s1, now) == Chosen(s1, q);
  }

  lemma {:induction false} WriteFollows(s: As, q: Rq, r: Rq)
    requires q in s.flight && s.kind == map[q := Sync] && r != q
    ensures Mixed(Then(Then(s, Add(r, Async)), Alias(r, Async)))
  {
    var s1 := Added(s, r, Async);
    assert s1.async[|s1.async| - 1] == r;
    var s2 := Move(s1, r, Async);
    assert q in s2.flight && r in s2.flight && s2.kind[q] != s2.kind[r];
  }

  /** A run from the empty scheduler: a read is dispatched, a write comes, and an alias moves it. */
  lemma {:induction false} AliasMixes(q: Rq, r: Rq, now: Now)
    requires q != r && !now.expired(Sync) && now.next(Sync) == q && !now.anticipates
    ensures Inv(START) && Mixed(Last(START, [Add(q, Sync), Call(now), Add(r, Async), Alias(r, Async)]))
  {
    FourSteps(START, Add(q, Sync), Call(now), Add(r, Async), Alias(r, Async));
    ReadGoes(START, q, now);
    WriteFollows(Then(Then(START, Add(q, Sync)), Call(now)), q, r);
  }
}
