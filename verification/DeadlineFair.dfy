// What deadline-iosched.c promises about time: FIFO order, and a bound on how long writes wait.
module DeadlineFair {
  import opened Lists
  import opened Directions
  import opened Deadline

  // ---------------------------------------------------------------- FIFO order

  /** Expiry times do not decrease along the FIFO, and none lies beyond the limit. */
  ghost predicate FifoOrder(fifo: seq<Rq>, info: map<Rq, Info>, limit: int) {
    NonDecreasing(fifo, Expiries(info)) && forall r :: r in fifo ==> ExpiryOf(info, r) <= limit
  }

  /** Both FIFOs are in order at the time `now`. */
  ghost predicate InOrder(s: State, t: Tunables, now: int) {
    && FifoOrder(s.fifo.read, s.info, now + t.expire.read)
    && FifoOrder(s.fifo.write, s.info, now + t.expire.write)
  }

  lemma {:induction false} OrderWithout(fifo: seq<Rq>, info: map<Rq, Info>, limit: int, r: Rq)
    requires FifoOrder(fifo, info, limit)
    ensures FifoOrder(Without(fifo, r), info, limit)
  {
    WithoutNonDecreasing(fifo, r, Expiries(info));
    WithoutMembers(fifo, r);
  }

  lemma {:induction false} OrderInfo(fifo: seq<Rq>, info: map<Rq, Info>, info': map<Rq, Info>, limit: int)
    requires FifoOrder(fifo, info, limit) && forall r :: r in fifo ==> ExpiryOf(info', r) == ExpiryOf(info, r)
    ensures FifoOrder(fifo, info', limit)
  {
    forall i, j | 0 <= i < j < |fifo| ensures Expiries(info')(fifo[i]) <= Expiries(info')(fifo[j]) {
      assert fifo[i] in fifo && fifo[j] in fifo;
      assert Expiries(info)(fifo[i]) <= Expiries(info)(fifo[j]);
    }
  }

  lemma {:induction false} OrderAppend(fifo: seq<Rq>, info: map<Rq, Info>, limit: int, r: Rq)
    requires FifoOrder(fifo, info, limit) && ExpiryOf(info, r) == limit
    ensures FifoOrder(fifo + [r], info, limit)
  {
    var f := fifo + [r];
    forall i, j | 0 <= i < j < |f| ensures Expiries(info)(f[i]) <= Expiries(info)(f[j]) {
      assert f[i] in fifo;
      if j < |fifo| { assert Expiries(info)(fifo[i]) <= Expiries(info)(fifo[j]); }
    }
  }

  lemma {:induction false} Later(s: State, t: Tunables, now: int, now': int)
    requires InOrder(s, t, now) && now <= now'
    ensures InOrder(s, t, now')
  {
  }

  lemma {:induction false} MoveOrder(s: State, t: Tunables, now: int, d: Dir, r: Rq)
    requires InOrder(s, t, now)
    ensures InOrder(Move(s, d, r), t, now)
  {
    OrderWithout(s.fifo.read, s.info, now + t.expire.read, r);
    OrderWithout(s.fifo.write, s.info, now + t.expire.write, r);
  }

  lemma {:induction false} AddToTreeOrder(s: State, t: Tunables, now: int, out: Two<set<Rq>>, d: Dir, r: Rq)
    requires InOrder(s, t, now) && Linked(s, out)
    ensures InOrder(AddToTree(s, d, r), t, now) && AddToTree(s, d, r).info == s.info
  {
    AddToTreeIs(s, out, d, r);
    var alias := Alias(At(s.tree, d), s.info, SectorOf(s.info, r));
    if alias.Some? { MoveOrder(s, t, now, d, alias.value); }
  }

  /** Order depends only on the FIFOs and the expiry times of what is in them. */
  lemma {:induction false} SameOrder(s: State, s': State, t: Tunables, now: int)
    requires InOrder(s, t, now) && s'.fifo == s.fifo
    requires forall r :: r in s.fifo.read || r in s.fifo.write ==> ExpiryOf(s'.info, r) == ExpiryOf(s.info, r)
    ensures InOrder(s', t, now)
  {
    OrderInfo(s.fifo.read, s.info, s'.info, now + t.expire.read);
    OrderInfo(s.fifo.write, s.info, s'.info, now + t.expire.write);
  }

  lemma {:induction false} AppendOrder(s: State, t: Tunables, now: int, d: Dir, r: Rq)
    requires InOrder(s, t, now) && ExpiryOf(s.info, r) == now + At(t.expire, d)
    ensures InOrder(s.(fifo := With(s.fifo, d, At(s.fifo, d) + [r])), t, now)
  {
    OrderAppend(At(s.fifo, d), s.info, now + At(t.expire, d), r);
  }

  lemma {:induction false} RegisterOrder(s: State, t: Tunables, r: Rq, i: Info, now: int)
    requires Linked(s, NONE) && InOrder(s, t, now) && r !in s.info
    ensures InOrder(Registered(s, r, i), t, now)
  {
    SameOrder(s, Registered(s, r, i), t, now);
  }

  lemma {:induction false} EnqueueOrder(s: State, t: Tunables, r: Rq, d: Dir, now: int)
    requires Linked(s, NONE) && InOrder(s, t, now) && ExpiryOf(s.info, r) == now + At(t.expire, d)
    ensures InOrder(Enqueued(s, d, r), t, now)
  {
    AddToTreeOrder(s, t, now, NONE, d, r);
    AppendOrder(AddToTree(s, d, r), t, now, d, r);
  }

  lemma {:induction false} AddOrder(s: State, t: Tunables, r: Rq, i: Info, now: int)
    requires Coherent(s) && InOrder(s, t, now) && r !in s.info && i.expiry == now + At(t.expire, i.dir)
    ensures InOrder(Add(s, r, i), t, now)
  {
    RegisterKeeps(s, r, i);
    RegisterOrder(s, t, r, i, now);
    EnqueueOrder(Registered(s, r, i), t, r, i.dir, now);
  }

  lemma {:induction false} BackMergeOrder(s: State, t: Tunables, now: int, r: Rq, n: nat)
    requires InOrder(s, t, now)
    ensures InOrder(BackMerge(s, r, n), t, now)
  {
    if r in s.info {
      var s' := BackMerge(s, r, n);
      OrderInfo(s.fifo.read, s.info, s'.info, now + t.expire.read);
      OrderInfo(s.fifo.write, s.info, s'.info, now + t.expire.write);
    }
  }

  lemma {:induction false} TakeOutOrder(s: State, t: Tunables, now: int, d: Dir, r: Rq, i: Info)
    requires InOrder(s, t, now) && r in s.info && i.expiry == s.info[r].expiry
    ensures InOrder(TakenOut(s, d, r, i), t, now)
  {
    SameOrder(s, TakenOut(s, d, r, i), t, now);
  }

  lemma {:induction false} RepositionOrder(s: State, t: Tunables, now: int, d: Dir, r: Rq, i: Info)
    requires Coherent(s) && InOrder(s, t, now) && r in At(s.tree, d) && r in s.info && i.dir == d
    requires i.expiry == s.info[r].expiry
    ensures InOrder(AddToTree(TakenOut(s, d, r, i), d, r), t, now)
  {
    TakeOutKeeps(s, d, r, i);
    TakeOutOrder(s, t, now, d, r, i);
    AddToTreeOrder(TakenOut(s, d, r, i), t, now, Only(d, r), d, r);
  }

  lemma {:induction false} FrontMergeOrder(s: State, t: Tunables, now: int, r: Rq, n: nat)
    requires Coherent(s) && InOrder(s, t, now) && r in s.info && n <= s.info[r].sector && r in At(s.tree, s.info[r].dir)
    ensures InOrder(FrontMerge(s, r, n), t, now)
  {
    RepositionOrder(s, t, now, s.info[r].dir, r,
                    s.info[r].(sector := s.info[r].sector - n, size := s.info[r].size + n));
  }

  lemma {:induction false} ConsOrder(x: Rq, s: seq<Rq>, key: Rq -> int)
    requires NonDecreasing(s, key) && forall j :: 0 <= j < |s| ==> key(x) <= key(s[j])
    ensures NonDecreasing([x] + s, key)
  {
  }

  lemma {:induction false} PutAfterAbove(s: seq<Rq>, y: Rq, x: Rq, key: Rq -> int, bound: int)
    requires key(x) == key(y) && forall j :: 0 <= j < |s| ==> bound <= key(s[j])
    ensures forall j :: 0 <= j < |PutAfter(s, y, x)| ==> bound <= key(PutAfter(s, y, x)[j])
  {
    if |s| > 0 && s[0] != y {
      forall j | 0 <= j < |s[1..]| ensures bound <= key(s[1..][j]) {
        assert s[1..][j] == s[j + 1];
      }
      PutAfterAbove(s[1..], y, x, key, bound);
    } else if |s| > 0 {
      var p := PutAfter(s, y, x);
      forall j | 0 <= j < |p| ensures bound <= key(p[j]) {
        assert bound <= key(s[0]);
        if j >= 2 { assert p[j] == s[j - 1]; }
      }
    }
  }

  /** Right after an element of the same key the order is kept. */
  lemma {:induction false} PutAfterOrder(s: seq<Rq>, y: Rq, x: Rq, key: Rq -> int)
    requires NonDecreasing(s, key) && key(x) == key(y)
    ensures NonDecreasing(PutAfter(s, y, x), key)
  {
    if |s| > 0 {
      var rest := s[1..];
      forall j | 0 <= j < |rest| ensures key(s[0]) <= key(rest[j]) { assert rest[j] == s[j + 1]; }
      if s[0] == y {
        ConsOrder(x, rest, key);
        ConsOrder(y, [x] + rest, key);
        assert PutAfter(s, y, x) == [y] + ([x] + rest);
      } else {
        PutAfterOrder(rest, y, x, key);
        PutAfterAbove(rest, y, x, key, key(s[0]));
        ConsOrder(s[0], PutAfter(rest, y, x), key);
      }
    }
  }

  lemma {:induction false} MergedFifoOrder(fifo: seq<Rq>, info: map<Rq, Info>, info': map<Rq, Info>, limit: int, r: Rq,
                                           n: Rq)
    requires FifoOrder(fifo, info, limit) && NoDup(fifo) && r in fifo && n in fifo && r != n
    requires ExpiryOf(info', r) ==
             if ExpiryOf(info, n) < ExpiryOf(info, r) then ExpiryOf(info, n) else ExpiryOf(info, r)
    requires forall x :: x != r ==> ExpiryOf(info', x) == ExpiryOf(info, x)
    ensures FifoOrder(MergedFifo(fifo, info, r, n), info', limit)
  {
    MergedFifoIs(fifo, info, r, n);
    if ExpiryOf(info, n) < ExpiryOf(info, r) {
      var f := Without(fifo, r);
      OrderWithout(fifo, info, limit, r);
      WithoutMembers(fifo, r);
      OrderInfo(f, info, info', limit);
      PutAfterOrder(f, n, r, Expiries(info'));
      WithoutNonDecreasing(PutAfter(f, n, r), n, Expiries(info'));
    } else {
      OrderWithout(fifo, info, limit, n);
      OrderInfo(Without(fifo, n), info, info', limit);
    }
  }

  lemma {:induction false} MergeOrder(s: State, t: Tunables, now: int, d: Dir, r: Rq, n: Rq)
    requires Coherent(s) && InOrder(s, t, now) && r in At(s.tree, d) && n in At(s.tree, d) && r != n
    ensures InOrder(MergeRequests(s, r, n), t, now)
  {
    FifoDir(s, NONE, d, r);
    FifoDir(s, NONE, d, n);
    var s' := MergeRequests(s, r, n);
    MergedFifoOrder(At(s.fifo, d), s.info, s'.info, now + At(t.expire, d), r, n);
    OrderInfo(At(s.fifo, Other(d)), s.info, s'.info, now + At(t.expire, Other(d)));
  }

  lemma {:induction false} StepOrder(s: State, t: Tunables, op: Op, now: int)
    requires Coherent(s) && Enabled(s, t, op, now) && InOrder(s, t, now)
    ensures InOrder(Step(s, t, op, now), t, now)
  {
    match op
    case OpAdd(r, i) => AddOrder(s, t, r, i, now);
    case OpBack(r, n) => BackMergeOrder(s, t, now, r, n);
    case OpFront(r, n) => FrontMergeOrder(s, t, now, r, n);
    case OpMerge(r, n) => MergeOrder(s, t, now, s.info[r].dir, r, n);
    case OpDispatch =>
      if Busy(s) && Choosable(s) {
        var (r, b) := Choice(s, t, now);
        MoveOrder(s.(batching := b + 1, starved := Starved(s, t)), t, now, DirOf(s.info, r), r);
      }
  }

  lemma {:induction false} StepThenLater(s: State, t: Tunables, e: Event, start: int, now: int)
    requires Coherent(s) && Enabled(s, t, e.op, e.now) && InOrder(s, t, start) && start <= e.now <= now
    ensures InOrder(Step(s, t, e.op, e.now), t, now)
  {
    Later(s, t, start, e.now);
    StepOrder(s, t, e.op, e.now);
    Later(Step(s, t, e.op, e.now), t, e.now, now);
  }

  /** Over every run with settings fixed and time not going back, both FIFOs stay in order. */
  lemma {:induction false} AlwaysInOrder(s: State, es: seq<Event>, t: Tunables, i: nat, start: int, now: int)
    requires Coherent(s) && Run(s, es, t) && i <= |es| && InOrder(s, t, start)
    requires start <= now && (|es| > 0 ==> start <= es[0].now) && (i > 0 ==> es[i - 1].now <= now)
    ensures InOrder(StateAt(s, es, t, i), t, now)
  {
    if i == 0 {
      Later(s, t, start, now);
    } else {
      var before := if i == 1 then start else es[i - 2].now;
      AlwaysInOrder(s, es, t, i - 1, start, before);
      AlwaysCoherent(s, es, t, i - 1);
      StepThenLater(StateAt(s, es, t, i - 1), t, es[i - 1], before, now);
    }
  }

  /** So a head that has not expired means that no request of its direction has. */
  lemma {:induction false} HeadTellsAll(s: State, t: Tunables, now: int, d: Dir, r: Rq)
    requires InOrder(s, t, now) && r in At(s.fifo, d)
    ensures !HeadExpired(s, d, now) ==> now <= ExpiryOf(s.info, r)
  {
    var f := At(s.fifo, d);
    var j :| 0 <= j < |f| && f[j] == r;
    if j > 0 { assert Expiries(s.info)(f[0]) <= Expiries(s.info)(f[j]); }
  }

  // ---------------------------------------------------------------- writes are not starved

  function Min(a: nat, b: nat): nat { if a < b then a else b }

  function AtLeastOne(n: nat): nat { if n == 0 then 1 else n }

  /** The requests of k batches. */
  function Batches(k: nat, size: nat): nat { if k == 0 then 0 else size + Batches(k - 1, size) }

  lemma {:induction false} BatchesIs(k: nat, size: nat)
    ensures Batches(k, size) == k * size
  {
    if k > 0 { BatchesIs(k - 1, size); }
  }

  lemma {:induction false} BatchesMonotone(a: nat, b: nat, size: nat)
    requires a <= b
    ensures Batches(a, size) <= Batches(b, size)
  {
    if a < b { BatchesMonotone(a, b - 1, size); }
  }

  /** How many reads may still be dispatched before a waiting write: the rest of the batch, then whole batches. */
  function Budget(s: State, t: Tunables): nat {
    var whole := Batches(t.writesStarved - Min(s.starved, t.writesStarved), AtLeastOne(t.fifoBatch));
    t.fifoBatch - Min(s.batching, t.fifoBatch) + whole
  }

  /** The direction of the request a call would dispatch. */
  ghost function Serves(s: State, t: Tunables, now: int): Dir
    requires Busy(s) && Choosable(s)
  {
    DirOf(s.info, Choice(s, t, now).0)
  }

  lemma {:induction false} ServesTurn(s: State, t: Tunables, now: int)
    requires Linked(s, NONE) && Busy(s) && Choosable(s) && !Entitled(s, t)
    ensures Serves(s, t, now) == Turn(s, t)
  {
    var d := Turn(s, t);
    assert |At(s.fifo, d)| > 0;
    if HeadExpired(s, d, now) {
      FifoDir(s, NONE, d, At(s.fifo, d)[0]);
    } else if At(s.next, d).Some? {
    } else {
      assert At(s.tree, d)[0] in At(s.tree, d);
    }
  }

  /** A call that passes a waiting write over uses up some of the budget. */
  lemma {:induction false} ReadCosts(s: State, t: Tunables, now: int)
    requires Linked(s, NONE) && |s.fifo.write| > 0 && Choosable(s) && Serves(s, t, now) == Read
    ensures Budget(Dispatch(s, t, now), t) < Budget(s, t)
  {
    var s' := Dispatch(s, t, now);
    if !Entitled(s, t) {
      ServesTurn(s, t, now);
      assert s'.starved == s.starved + 1 && s.starved < t.writesStarved;
      assert t.writesStarved - Min(s'.starved, t.writesStarved) == t.writesStarved - s.starved - 1;
      assert s'.batching == 1 || s'.batching > t.fifoBatch;
    }
  }

  lemma {:induction false} AddFree(s: State, r: Rq, i: Info)
    requires Coherent(s) && r !in s.info
    ensures Add(s, r, i).batching == s.batching && Add(s, r, i).starved == s.starved
  {
    RegisterKeeps(s, r, i);
    AddToTreeIs(Registered(s, r, i), NONE, i.dir, r);
  }

  lemma {:induction false} FrontFree(s: State, r: Rq, n: nat)
    requires Coherent(s) && Queued(s, r) && n <= s.info[r].sector
    ensures FrontMerge(s, r, n).batching == s.batching && FrontMerge(s, r, n).starved == s.starved
  {
    var i := s.info[r].(sector := s.info[r].sector - n, size := s.info[r].size + n);
    TakeOutKeeps(s, i.dir, r, i);
    AddToTreeIs(TakenOut(s, i.dir, r, i), Only(i.dir, r), i.dir, r);
  }

  /** Operations other than a dispatch do not touch the batch and the starvation counts. */
  lemma {:induction false} OthersFree(s: State, t: Tunables, op: Op, now: int)
    requires Coherent(s) && Enabled(s, t, op, now) && !op.OpDispatch?
    ensures Step(s, t, op, now).batching == s.batching && Step(s, t, op, now).starved == s.starved
  {
    match op
    case OpAdd(r, i) => AddFree(s, r, i);
    case OpBack(r, n) =>
    case OpFront(r, n) => FrontFree(s, r, n);
    case OpMerge(r, n) =>
  }

  function Cost(e: Event): nat { if e.op.OpDispatch? then 1 else 0 }

  /** The number of dispatch calls among the first i events. */
  function Calls(es: seq<Event>, i: nat): nat
    requires i <= |es|
  {
    if i == 0 then 0 else Calls(es, i - 1) + Cost(es[i - 1])
  }

  ghost predicate PassedOver(s: State, t: Tunables, e: Event) {
    e.op.OpDispatch? ==> |s.fifo.write| > 0 && Choosable(s) && Serves(s, t, e.now) == Read
  }

  /** Every dispatch call of the run finds a write waiting and still dispatches a read. */
  ghost predicate Starving(s: State, es: seq<Event>, t: Tunables) {
    forall i {:trigger PassedOver(StateAt(s, es, t, i), t, es[i])} :: 0 <= i < |es|
        ==> PassedOver(StateAt(s, es, t, i), t, es[i])
  }

  lemma {:induction false} BudgetStep(s: State, t: Tunables, e: Event)
    requires Coherent(s) && Enabled(s, t, e.op, e.now)
    requires PassedOver(s, t, e)
    ensures Budget(Step(s, t, e.op, e.now), t) + Cost(e) <= Budget(s, t)
  {
    if e.op.OpDispatch? { ReadCosts(s, t, e.now); } else { OthersFree(s, t, e.op, e.now); }
  }

  lemma {:induction false} Spend(budgets: seq<nat>, es: seq<Event>, i: nat)
    requires i <= |es| < |budgets|
    requires forall j :: 0 <= j < |es| ==> budgets[j + 1] + Cost(es[j]) <= budgets[j]
    ensures Calls(es, i) + budgets[i] <= budgets[0]
  {
    if i > 0 { Spend(budgets, es, i - 1); }
  }

  lemma {:induction false} EventCosts(s: State, es: seq<Event>, t: Tunables, i: nat)
    requires Coherent(s) && Run(s, es, t) && Starving(s, es, t) && i < |es|
    ensures Budget(StateAt(s, es, t, i + 1), t) + Cost(es[i]) <= Budget(StateAt(s, es, t, i), t)
  {
    AlwaysCoherent(s, es, t, i);
    BudgetStep(StateAt(s, es, t, i), t, es[i]);
  }

  lemma {:induction false} SpendAll(s: State, es: seq<Event>, t: Tunables, budgets: seq<nat>)
    requires Coherent(s) && Run(s, es, t) && Starving(s, es, t) && |budgets| == |es| + 1
    requires forall j :: 0 <= j <= |es| ==> budgets[j] == Budget(StateAt(s, es, t, j), t)
    ensures forall j :: 0 <= j < |es| ==> budgets[j + 1] + Cost(es[j]) <= budgets[j]
  {
    forall j | 0 <= j < |es| ensures budgets[j + 1] + Cost(es[j]) <= budgets[j] { EventCosts(s, es, t, j); }
  }

  /**
   * Bounded starvation. In a run with settings fixed in which every dispatch call finds a write waiting, whatever is
   * added or merged in between, no more calls than the budget go to reads before one dispatches a write.
   */
  lemma {:induction false} WritesWait(s: State, es: seq<Event>, t: Tunables)
    requires Coherent(s) && Run(s, es, t) && Starving(s, es, t)
    ensures Calls(es, |es|) <= Budget(s, t)
  {
    var budgets := seq(|es| + 1, j requires 0 <= j <= |es| => Budget(StateAt(s, es, t, j), t));
    SpendAll(s, es, t, budgets);
    Spend(budgets, es, |es|);
  }

  /** The bound once a request has been dispatched: a batch less its first request, then whole batches. */
  function BatchBound(t: Tunables): nat { AtLeastOne(t.fifoBatch) - 1 + t.writesStarved * AtLeastOne(t.fifoBatch) }

  lemma {:induction false} BudgetBound(s: State, t: Tunables)
    ensures Budget(s, t) <= t.fifoBatch + t.writesStarved * AtLeastOne(t.fifoBatch)
    ensures s.batching > 0 ==> Budget(s, t) <= BatchBound(t)
  {
    BatchesMonotone(t.writesStarved - Min(s.starved, t.writesStarved), t.writesStarved, AtLeastOne(t.fifoBatch));
    BatchesIs(t.writesStarved, AtLeastOne(t.fifoBatch));
  }

  /** A write that the batch goes on with is served at once. */
  lemma {:induction false} BatchedWrite(s: State, t: Tunables, now: int)
    requires Linked(s, NONE) && Busy(s) && Choosable(s) && Entitled(s, t) && s.next.read.None?
    ensures Serves(s, t, now) == Write
  {
    assert s.next.write.value in s.tree.write;
  }

  lemma {:induction false} FirstState(s: State, es: seq<Event>, t: Tunables, i: nat)
    requires i == 1 <= |es| && Starving(s, es, t)
    ensures StateAt(s, es, t, i) == Step(s, t, es[0].op, es[0].now) && PassedOver(s, t, es[0])
  {
    assert StateAt(s, es, t, i - 1) == s;
    assert PassedOver(StateAt(s, es, t, i - 1), t, es[i - 1]);
  }

  lemma {:induction false} SpendRest(budgets: seq<nat>, es: seq<Event>, i: nat)
    requires 1 <= i <= |es| < |budgets|
    requires forall j :: 0 <= j < |es| ==> budgets[j + 1] + Cost(es[j]) <= budgets[j]
    ensures Calls(es, i) + budgets[i] <= 1 + budgets[1]
  {
    if i > 1 { SpendRest(budgets, es, i - 1); } else { assert Calls(es, 1) == Calls(es, 0) + Cost(es[0]); }
  }

  lemma {:induction false} SelectionBudget(s: State, t: Tunables, now: int)
    requires Linked(s, NONE) && |s.fifo.write| > 0 && Choosable(s) && Serves(s, t, now) == Read && !Entitled(s, t)
    ensures 1 + Budget(Dispatch(s, t, now), t) <= BatchBound(t)
  {
    ServesTurn(s, t, now);
    var s' := Dispatch(s, t, now);
    assert s'.starved == s.starved + 1 && s.starved < t.writesStarved;
    assert s'.batching == 1 || s'.batching > t.fifoBatch;
    BatchesMonotone(t.writesStarved - s.starved, t.writesStarved, AtLeastOne(t.fifoBatch));
    BatchesIs(t.writesStarved, AtLeastOne(t.fifoBatch));
  }

  lemma {:induction false} FirstBudget(s: State, es: seq<Event>, t: Tunables, i: nat)
    requires Coherent(s) && Starving(s, es, t) && i == 1 <= |es| && es[0].op.OpDispatch? && !Entitled(s, t)
    ensures 1 + Budget(StateAt(s, es, t, i), t) <= BatchBound(t)
  {
    FirstState(s, es, t, i);
    SelectionBudget(s, t, es[0].now);
  }

  /** When the first call starts a batch, one of the batches is its own. */
  lemma {:induction false} FirstCall(s: State, es: seq<Event>, t: Tunables)
    requires Coherent(s) && Run(s, es, t) && Starving(s, es, t) && |es| > 0 && es[0].op.OpDispatch?
    requires !Entitled(s, t)
    ensures Calls(es, |es|) <= BatchBound(t)
  {
    var budgets := seq(|es| + 1, j requires 0 <= j <= |es| => Budget(StateAt(s, es, t, j), t));
    SpendAll(s, es, t, budgets);
    SpendRest(budgets, es, |es|);
    FirstBudget(s, es, t, 1);
  }

  /**
   * The tighter bound holds for every run that starts with a dispatch call, unless a batch of reads that no call has
   * begun goes on; module DeadlineSharp shows that it is exceeded then, whatever the settings.
   */
  lemma {:induction false} WritesWaitLess(s: State, es: seq<Event>, t: Tunables)
    requires Coherent(s) && Run(s, es, t) && Starving(s, es, t) && |es| > 0 && es[0].op.OpDispatch?
    requires !(s.batching == 0 && Entitled(s, t) && s.next.read.Some?)
    ensures Calls(es, |es|) <= BatchBound(t)
  {
    if s.batching > 0 {
      WritesWait(s, es, t);
      BudgetBound(s, t);
    } else {
      FirstState(s, es, t, 1);
      assert !Entitled(s, t) by {
        if Entitled(s, t) { BatchedWrite(s, t, es[0].now); }
      }
      FirstCall(s, es, t);
    }
  }

  // ---------------------------------------------------------------- where the tighter bound fails

  lemma {:induction false} AddPlain(s: State, r: Rq, i: Info)
    requires Alias(At(s.tree, i.dir), s.info[r := i], i.sector).None?
    ensures Add(s, r, i) == s.(info := s.info[r := i], sorted := s.sorted + 1,
                               tree := With(s.tree, i.dir, Insert(At(s.tree, i.dir), s.info[r := i], r)),
                               fifo := With(s.fifo, i.dir, At(s.fifo, i.dir) + [r]))
  {
  }
}
