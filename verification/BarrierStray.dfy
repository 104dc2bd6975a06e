// What becomes of the barrier protocol when the driver gives back, in the middle of an ordered sequence, a request that
// does not have the barrier's colour: elv_insert puts it behind the sequence, and either the sequence overtakes it or
// the queue hangs. Together with BarrierSafety this makes the guard InColor exact.
module BarrierStray {
  import opened Barrier

  // ---------------------------------------------------------------- the two ways it goes wrong

  /** A step of barrier b's sequence has reached the driver while request x, submitted before b, was not finished. */
  ghost predicate Overtaken(trace: seq<Event>, b: nat, x: nat) {
    x < b && exists k :: 0 <= k < |trace| && (trace[k] == Issue(PreOf(b)) || trace[k] == Issue(BarOf(b)))
                         && Finish(FsReq(x)) !in trace[..k] && End(x) !in trace[..k]
  }

  lemma {:induction false} OvertakenUnsafe(trace: seq<Event>, b: nat, x: nat)
    requires Overtaken(trace, b, x)
    ensures !Safe(trace)
  {
    var k :| 0 <= k < |trace| && (trace[k] == Issue(PreOf(b)) || trace[k] == Issue(BarOf(b)))
             && Finish(FsReq(x)) !in trace[..k] && End(x) !in trace[..k];
    assert !AllBefore(trace[..k], b);
    assert !SafeEvent(trace[..k], trace[k]);
  }

  /** The sequence waits for the drain, its first step is at the head, and the driver holds nothing that could end
      it. */
  ghost predicate Hung(q: Queue) {
    && q.ordseq != 0 && CurSeq(q.ordseq) == DRAIN && |q.head| > 0 && !q.head[0].Fs?
    && !Busy(q.place) && q.started == {}
  }

  /** A hung queue only takes submissions. */
  lemma {:induction false} HungStays(q: Queue, a: Action)
    requires Hung(q) && Enabled(q, a)
    ensures Hung(Step(q, a))
    ensures Step(q, a).trace == q.trace || exists barrier :: Step(q, a).trace == q.trace + [Submit(|q.info|, barrier)]
  {
    match a
    case DoSubmitSort => AtUpdate(q.place, Fs(|q.info|), Sched);
    case DoSubmitBack(_) => AtUpdate(q.place, Fs(|q.info|), Queued);
    case DoDispatch(id, k) =>
      AtUpdate(q.place, Fs(id), Queued);
      assert k == 0 ==> Fence(q, q.head[0]);
    case DoMode(_) =>
  }

  /** So nothing is ever handed out or finished again. */
  lemma {:induction false} HungForever(q: Queue, acts: seq<Action>, q': Queue)
    requires Hung(q) && Leads(q, acts, q')
    ensures Hung(q') && q.trace <= q'.trace && forall i :: |q.trace| <= i < |q'.trace| ==> q'.trace[i].Submit?
    decreases |acts|
  {
    if acts != [] {
      var q1 := Step(q, acts[0]);
      HungStays(q, acts[0]);
      HungForever(q1, acts[1..], q');
    }
  }

  // ---------------------------------------------------------------- the sequence overtakes the request

  /** The first k entries of the queue are waited for, and then comes the first step of the sequence. */
  ghost predicate Front(info: seq<Info>, head: seq<Rq>, place: map<Rq, Place>, orig: nat, x: nat, k: nat) {
    && k < |head| && (head[k] == Pre || head[k] == Bar)
    && (forall i :: 0 <= i < k ==> head[i].Fs? && head[i] != Fs(x) && ReqSeq(info, orig, head[i]) == DRAIN)
    && (forall i :: 0 <= i < k ==> At(place, head[i]) == Queued)
    && (forall i, j :: 0 <= i < j < k ==> head[i] != head[j])
  }

  /** Only file-system requests, and not x, are with the driver. */
  ghost predicate Flight(place: map<Rq, Place>, inFlight: int, x: nat) {
    inFlight == |InDriver(place)| && forall r :: At(place, r) == Driver ==> r.Fs? && r != Fs(x)
  }

  ghost predicate Unfinished(trace: seq<Event>, x: nat) { Finish(FsReq(x)) !in trace && End(x) !in trace }

  /** Request x has landed behind the sequence. */
  ghost predicate Lost(q: Queue, x: nat, k: nat) {
    && Front(q.info, q.head, q.place, q.orig, x, k) && Flight(q.place, q.inFlight, x) && Unfinished(q.trace, x)
    && x < q.orig && q.ordseq != 0 && CurSeq(q.ordseq) == DRAIN && q.head[k] !in q.started
    && CurSeq(q.ordseq | DRAIN) == SeqBit(q.head[k])
  }

  lemma {:induction false} FrontMoves(info: seq<Info>, head: seq<Rq>, place: map<Rq, Place>, orig: nat, x: nat, k: nat,
                                      r: Rq, p: Place)
    requires Front(info, head, place, orig, x, k) && At(place, r) != Queued
    ensures Front(info, head, place[r := p], orig, x, k)
  {
    AtUpdate(place, r, p);
  }

  lemma {:induction false} FlightEnds(place: map<Rq, Place>, inFlight: int, x: nat, y: nat)
    requires Flight(place, inFlight, x) && At(place, Fs(y)) == Driver
    ensures Flight(place[Fs(y) := Over], inFlight - 1, x) && y != x && inFlight > 0
  {
    AtUpdate(place, Fs(y), Over);
    FlightDown(place, Fs(y), Over);
  }

  /** The driver completes a request, and more are waited for. */
  lemma {:induction false} LostCompletes(q: Queue, x: nat, k: nat, y: nat)
    requires Lost(q, x, k) && At(q.place, Fs(y)) == Driver && (k > 0 || q.inFlight > 1)
    ensures Lost(Complete(q, Fs(y), 0), x, k) && Complete(q, Fs(y), 0).inFlight == q.inFlight - 1
  {
    FlightEnds(q.place, q.inFlight, x, y);
    FrontMoves(q.info, q.head, q.place, q.orig, x, k, Fs(y), Over);
    assert DrainCheck(Released(q, Fs(y), 0)) == Released(q, Fs(y), 0);
  }

  lemma {:induction false} LastCompletes(q: Queue, x: nat, y: nat)
    requires Lost(q, x, 0) && At(q.place, Fs(y)) == Driver && q.inFlight == 1
    ensures var q2 := Complete(q, Fs(y), 0);
            && q2.head == q.head && q2.orig == q.orig && q2.started == q.started - {Fs(y)} && q2.info == q.info
            && q2.trace == q.trace + [Finish(FsReq(y))] && q2.ordseq == q.ordseq | DRAIN
    ensures y != x
  {
    assert Complete(q, Fs(y), 0) == Released(q, Fs(y), 0).(ordseq := q.ordseq | DRAIN);
  }

  lemma {:induction false} StepOvertakes(q: Queue, x: nat)
    requires |q.head| > 0 && (q.head[0] == Pre || q.head[0] == Bar) && q.head[0] !in q.started
    requires q.ordseq != 0 && CurSeq(q.ordseq) == SeqBit(q.head[0]) && Unfinished(q.trace, x) && x < q.orig
    ensures Enabled(q, DoIssue) && Overtaken(IssueHead(q).trace, q.orig, x)
  {
    var t := IssueHead(q).trace;
    assert t == q.trace + [Issue(ItemOf(q.orig, q.head[0]))];
    assert t[..|q.trace|] == q.trace && t[|q.trace|] == Issue(ItemOf(q.orig, q.head[0]));
  }

  /** The driver completes the last one: the drain is taken to be over, and the first step is handed out. */
  lemma {:induction false} LostOvertaken(q: Queue, x: nat, y: nat) returns (acts: seq<Action>, q': Queue)
    requires Lost(q, x, 0) && At(q.place, Fs(y)) == Driver && q.inFlight == 1
    ensures Leads(q, acts, q') && Overtaken(q'.trace, q.orig, x)
  {
    LastCompletes(q, x, y);
    var q2 := Complete(q, Fs(y), 0);
    One(q, DoComplete(Fs(y), 0));
    StepOvertakes(q2, x);
    q' := IssueHead(q2);
    One(q2, DoIssue);
    LeadsOn(q, [DoComplete(Fs(y), 0)], q2, [DoIssue], q');
    acts := [DoComplete(Fs(y), 0)] + [DoIssue];
  }

  lemma {:induction false} FrontTaken(info: seq<Info>, head: seq<Rq>, place: map<Rq, Place>, orig: nat, x: nat, k: nat)
    requires Front(info, head, place, orig, x, k) && k > 0
    ensures Front(info, RemoveAt(head, 0), place[head[0] := Driver], orig, x, k - 1)
    ensures RemoveAt(head, 0)[k - 1] == head[k]
  {
    AtUpdate(place, head[0], Driver);
    var s := RemoveAt(head, 0);
    assert forall i :: 0 <= i < |s| ==> s[i] == head[i + 1];
  }

  lemma {:induction false} FlightTaken(place: map<Rq, Place>, inFlight: int, x: nat, r: Rq)
    requires Flight(place, inFlight, x) && At(place, r) == Queued && r.Fs? && r != Fs(x)
    ensures Flight(place[r := Driver], inFlight + 1, x)
  {
    AtUpdate(place, r, Driver);
    FlightUp(place, r);
  }

  lemma {:induction false} LostIssued(q: Queue, x: nat, k: nat)
    requires Lost(q, x, k) && k > 0
    ensures Enabled(q, DoIssue) && Lost(IssueHead(q), x, k) && q.head[0] in IssueHead(q).started
    ensures IssueHead(q).inFlight == q.inFlight && IssueHead(q).orig == q.orig && IssueHead(q).head == q.head
  {
    assert q.head[0] != q.head[k];
    assert Unfinished(IssueHead(q).trace, x);
  }

  lemma {:induction false} LostTaken(q: Queue, x: nat, k: nat)
    requires Lost(q, x, k) && k > 0
    ensures Lost(Dequeue(q, 0), x, k - 1) && Dequeue(q, 0).inFlight == q.inFlight + 1 && Dequeue(q, 0).orig == q.orig
  {
    FrontTaken(q.info, q.head, q.place, q.orig, x, k);
    FlightTaken(q.place, q.inFlight, x, q.head[0]);
  }

  /** The driver takes a request that is waited for. */
  lemma {:induction false} LostTakes(q: Queue, x: nat, k: nat) returns (acts: seq<Action>, q': Queue)
    requires Lost(q, x, k) && k > 0
    ensures Leads(q, acts, q') && Lost(q', x, k - 1) && q'.inFlight == q.inFlight + 1 && q'.orig == q.orig
  {
    var q1 := IssueHead(q);
    LostIssued(q, x, k);
    LostTaken(q1, x, k);
    q' := Dequeue(q1, 0);
    assert Leads(q, [DoIssue], q1) by { One(q, DoIssue); }
    assert Leads(q1, [DoDequeue(0)], q') by { One(q1, DoDequeue(0)); }
    LeadsOn(q, [DoIssue], q1, [DoDequeue(0)], q');
    acts := [DoIssue] + [DoDequeue(0)];
  }

  lemma {:induction false} SomeInFlight(q: Queue, x: nat) returns (y: nat)
    requires Flight(q.place, q.inFlight, x) && q.inFlight > 0
    ensures At(q.place, Fs(y)) == Driver
  {
    var r :| r in InDriver(q.place);
    assert At(q.place, r) == Driver;
    y := r.id;
  }

  /** As long as anything is waited for, the run goes on to where the sequence overtakes x. */
  lemma {:induction false} LostIsOvertaken(q: Queue, x: nat, k: nat) returns (acts: seq<Action>, q': Queue)
    requires Lost(q, x, k) && (k > 0 || q.inFlight > 0)
    ensures Leads(q, acts, q') && Overtaken(q'.trace, q.orig, x)
    decreases 2 * k + q.inFlight
  {
    if q.inFlight > 0 {
      var y := SomeInFlight(q, x);
      if k > 0 || q.inFlight > 1 {
        LostCompletes(q, x, k, y);
        One(q, DoComplete(Fs(y), 0));
        var q1 := Complete(q, Fs(y), 0);
        acts, q' := LostIsOvertaken(q1, x, k);
        LeadsOn(q, [DoComplete(Fs(y), 0)], q1, acts, q');
        acts := [DoComplete(Fs(y), 0)] + acts;
      } else {
        acts, q' := LostOvertaken(q, x, y);
      }
    } else {
      var acts0, q1 := LostTakes(q, x, k);
      acts, q' := LostIsOvertaken(q1, x, k - 1);
      LeadsOn(q, acts0, q1, acts, q');
      acts := acts0 + acts;
    }
  }

  // ---------------------------------------------------------------- giving back a request of another colour

  /** The first entry that is not an earlier request. */
  lemma {:induction false} FirstStep(head: seq<Rq>, orig: nat, j: nat) returns (k: nat)
    requires j < |head| && Rank(orig, head[j]) > 1
    ensures k <= j && Rank(orig, head[k]) > 1 && forall i :: 0 <= i < k ==> Rank(orig, head[i]) == 1
  {
    k := 0;
    while Rank(orig, head[k]) <= 1
      invariant k <= j && forall i :: 0 <= i < k ==> Rank(orig, head[i]) == 1
      decreases j - k
    {
      k := k + 1;
    }
  }

  /** The walk passes entries that come earlier in the sequence. */
  lemma {:induction false} WalksPast(q: Queue, seqno: bv8, i: nat, k: nat)
    requires i <= k < |q.head| && forall j :: i <= j <= k ==> ReqSeq(q.info, q.orig, q.head[j]) < seqno
    ensures RequeuePos(q, seqno, i) > k
    decreases k - i
  {
    if i < k { WalksPast(q, seqno, i + 1, k); }
  }

  lemma {:induction false} NoProxyInFlight(q: Queue)
    requires Structure(q) && Sequence(q) && q.ordseq != 0 && q.ordseq & DRAIN == 0
    ensures forall r: Rq :: !r.Fs? ==> r !in q.started && At(q.place, r) != Driver
    ensures q.ordseq & PREFLUSH == 0 ==> Pre in q.head
    ensures q.ordseq & BAR == 0 ==> Bar in q.head
  {
    forall r: Rq | !r.Fs? ensures r !in q.started && At(q.place, r) != Driver {
      assert At(q.place, r) == Driver ==> r in q.started;
    }
  }

  lemma {:induction false} NextDue(s: bv8, r: Rq)
    requires s & STARTED != 0 && (r == Pre || r == Bar) && s & SeqBit(r) == 0 && (r == Bar ==> s & PREFLUSH != 0)
    ensures CurSeq(s | DRAIN) == SeqBit(r)
  {
  }

  /** Which step of the sequence comes first, and that it is due next. */
  lemma {:induction false} StepDue(q: Queue, x: nat) returns (k: nat)
    requires Structure(q) && Sequence(q) && q.ordseq != 0 && At(q.place, Fs(x)) == Driver
    ensures k < |q.head| && (q.head[k] == Pre || q.head[k] == Bar) && CurSeq(q.ordseq | DRAIN) == SeqBit(q.head[k])
    ensures forall i :: 0 <= i < k ==> Rank(q.orig, q.head[i]) == 1
    ensures Pre !in q.started && Bar !in q.started
  {
    StillDraining(q, x);
    var j :| 0 <= j < |q.head| && q.head[j] == Bar;
    k := FirstStep(q.head, q.orig, j);
    assert Rank(q.orig, q.head[k]) <= 3;
    assert At(q.place, q.head[k]) == Queued;
    NoProxyInFlight(q);
    assert q.head[k] == Bar ==> q.ordseq & PREFLUSH != 0;
    NextDue(q.ordseq, q.head[k]);
  }

  lemma {:induction false} NotFinishedYet(q: Queue, x: nat)
    requires Overs(q.info, q.place, q.trace) && At(q.place, Fs(x)) == Driver
    ensures Unfinished(RequeueRq(q, Fs(x)).trace, x)
  {
  }

  lemma {:induction false} StrayLands(q: Queue, x: nat, k: nat)
    requires Hues(q.info, q.head, q.orig) && q.ordseq != 0 && ReqSeq(q.info, q.orig, Fs(x)) == DONE
    requires k < |q.head| && (q.head[k] == Pre || q.head[k] == Bar)
    requires forall i :: 0 <= i < k ==> Rank(q.orig, q.head[i]) == 1
    ensures var head' := RequeueRq(q, Fs(x)).head;
            k < |head'| && head'[..k + 1] == q.head[..k + 1] && forall i :: 0 <= i <= k ==> head'[i] == q.head[i]
  {
    WalksPast(q, DONE, 0, k);
    var p, head' := RequeuePos(q, DONE, 0), RequeueRq(q, Fs(x)).head;
    assert head' == Insert(q.head, p, Fs(x));
    assert forall i :: 0 <= i <= k ==> head'[i] == q.head[i];
  }

  lemma {:induction false} StrayFront(info: seq<Info>, head: seq<Rq>, head': seq<Rq>, place: map<Rq, Place>, orig: nat,
                                      x: nat, k: nat)
    requires HeadOk(head, place) && Hues(info, head, orig) && At(place, Fs(x)) == Driver
    requires k < |head| && k < |head'| && (head[k] == Pre || head[k] == Bar)
    requires forall i :: 0 <= i < k ==> Rank(orig, head[i]) == 1
    requires forall i :: 0 <= i <= k ==> head'[i] == head[i]
    ensures Front(info, head', place[Fs(x) := Queued], orig, x, k)
  {
    AtUpdate(place, Fs(x), Queued);
    forall i | 0 <= i < k ensures head'[i].Fs? && head'[i] != Fs(x) && At(place[Fs(x) := Queued], head'[i]) == Queued {
      assert At(place, head[i]) == Queued;
    }
  }

  lemma {:induction false} StrayHead(q: Queue, x: nat, k: nat)
    requires Structure(q) && Sequence(q) && q.ordseq != 0 && At(q.place, Fs(x)) == Driver
    requires !InColor(q, DoRequeue(Fs(x))) && k < |q.head| && (q.head[k] == Pre || q.head[k] == Bar)
    requires forall i :: 0 <= i < k ==> Rank(q.orig, q.head[i]) == 1
    ensures var q' := RequeueRq(q, Fs(x)); k < |q'.head| && q'.head[..k + 1] == q.head[..k + 1]
    ensures var q' := RequeueRq(q, Fs(x)); Front(q'.info, q'.head, q'.place, q'.orig, x, k)
  {
    StrayLands(q, x, k);
    StrayFront(q.info, q.head, RequeueRq(q, Fs(x)).head, q.place, q.orig, x, k);
  }

  lemma {:induction false} StrayFlight(q: Queue, x: nat)
    requires Structure(q) && At(q.place, Fs(x)) == Driver
    requires forall r: Rq :: !r.Fs? ==> At(q.place, r) != Driver
    ensures Flight(q.place[Fs(x) := Queued], q.inFlight - 1, x)
  {
    AtUpdate(q.place, Fs(x), Queued);
    RequeueFlight(q.place, Fs(x));
  }

  /** The request has landed behind the sequence. */
  lemma {:induction false} StrayIsLost(q: Queue, x: nat) returns (k: nat)
    requires Inv(q) && q.ordseq != 0 && At(q.place, Fs(x)) == Driver && !InColor(q, DoRequeue(Fs(x)))
    ensures Lost(RequeueRq(q, Fs(x)), x, k)
    ensures k < |q.head| && (q.head[k] == Pre || q.head[k] == Bar) && forall i ::
            0 <= i < k ==> Rank(q.orig, q.head[i]) == 1
  {
    StillDraining(q, x);
    NoProxyInFlight(q);
    k := StepDue(q, x);
    StrayHead(q, x, k);
    var q' := RequeueRq(q, Fs(x));
    assert q'.head[k] == q.head[k] by { assert q'.head[..k + 1][k] == q.head[..k + 1][k]; }
    StrayFlight(q, x);
    NotFinishedYet(q, x);
  }

  /** Apart from the request given back, what has been handed out is with the driver. */
  lemma {:induction false} StartedIsStray(q: Queue, x: nat, r: Rq)
    requires Structure(q) && Sequence(q) && q.ordseq != 0 && At(q.place, Fs(x)) == Driver && r in q.started
    requires !Busy(q.place[Fs(x) := Queued]) && |q.head| > 0 && !q.head[0].Fs?
    ensures r == Fs(x)
  {
    StillDraining(q, x);
    NoProxyInFlight(q);
    AtUpdate(q.place, Fs(x), Queued);
    assert r != Fs(x) ==> At(q.place[Fs(x) := Queued], r) == At(q.place, r);
    assert IsBarrier(q.info, Fs(q.orig));
    assert Rank(q.orig, r) == 1;
    assert Rank(q.orig, q.head[0]) > 1;
  }

  /** With nothing left to wait for, the queue hangs. */
  lemma {:induction false} StrayHangs(q: Queue, x: nat)
    requires Inv(q) && q.ordseq != 0 && At(q.place, Fs(x)) == Driver && q.inFlight == 1
    requires |q.head| > 0 && !q.head[0].Fs? && |RequeueRq(q, Fs(x)).head| > 0
    requires RequeueRq(q, Fs(x)).head[0] == q.head[0]
    ensures Hung(RequeueRq(q, Fs(x)))
  {
    var place' := q.place[Fs(x) := Queued];
    StillDraining(q, x);
    NoProxyInFlight(q);
    AtUpdate(q.place, Fs(x), Queued);
    RequeueFlight(q.place, Fs(x));
    forall r ensures At(place', r) != Driver {
      if r.Fs? { FlightNone(place', r); }
    }
    forall r | r in q.started ensures r == Fs(x) {
      StartedIsStray(q, x, r);
    }
  }

  /**
   * The guard is exact. Where the queue is as a run keeps it, giving back a request that meets the guard keeps it so;
   * giving back one that does not leaves a queue that hangs for good, or one from which the run goes on to an unsafe
   * trace.
   */
  lemma {:induction false} GuardExact(q: Queue, r: Rq) returns (acts: seq<Action>, q': Queue)
    requires Inv(q) && Enabled(q, DoRequeue(r))
    ensures InColor(q, DoRequeue(r)) ==> Inv(Step(q, DoRequeue(r)))
    ensures !InColor(q, DoRequeue(r)) ==>
              Hung(Step(q, DoRequeue(r))) || (Leads(Step(q, DoRequeue(r)), acts, q') && r.Fs?
                  && Overtaken(q'.trace, q.orig, r.id) && !Safe(q'.trace))
  {
    acts, q' := [], q;
    if InColor(q, DoRequeue(r)) {
      StepKeeps(q, DoRequeue(r));
    } else {
      var x := r.id;
      var k := StrayIsLost(q, x);
      var q1 := RequeueRq(q, r);
      if k > 0 || q1.inFlight > 0 {
        acts, q' := LostIsOvertaken(q1, x, k);
        OvertakenUnsafe(q'.trace, q.orig, x);
      } else {
        assert q1.head[0] == q.head[0] by { StrayHead(q, x, 0); assert q1.head[..1][0] == q.head[..1][0]; }
        StrayHangs(q, x);
      }
    }
  }

  /** On runs: the first request given back against the guard leads to a hang or to an unsafe trace. */
  lemma {:induction false} GuardNeeded(qs: seq<Queue>, acts: seq<Action>, n: nat) returns (more: seq<Action>, q': Queue)
    requires Run(qs, acts) && n < |acts| && Guarded(qs, acts, n) && !InColor(qs[n], acts[n])
    ensures Hung(qs[n + 1]) || (Leads(qs[n + 1], more, q') && !Safe(q'.trace))
  {
    RunKeeps(qs, acts, n);
    more, q' := GuardExact(qs[n], acts[n].r);
  }

  // ---------------------------------------------------------------- both happen

  const R0 := Info(false, false)
  const B2 := Info(false, true)
  const B3 := Info(true, true)

  /** Two requests are with the driver. */
  ghost function InFlightTwo(): Queue {
    Queue([R0, R0], map[Fs(0) := Driver, Fs(1) := Driver], [], {Fs(0), Fs(1)}, {Fs(0), Fs(1)}, 2, 0, false, 0,
          DrainFlush, 0, false, false, [Submit(0, false), Submit(1, false), Issue(FsReq(0)), Issue(FsReq(1))])
  }

  /** A barrier behind them has been refused. */
  ghost function Refused(): Queue {
    Queue([R0, R0, B2], map[Fs(0) := Driver, Fs(1) := Driver, Fs(2) := Over], [], {Fs(0), Fs(1)},
          {Fs(0), Fs(1), Fs(2)}, 2, 0, true, 0, NoneMode, 0, false, false,
          InFlightTwo().trace + [Submit(2, true), Report(2, -EOPNOTSUPP), End(2)])
  }

  /** The driver takes the request at the head. */
  lemma {:induction false} TakeHead(q: Queue)
    requires |q.head| > 0 && q.ordseq == 0 && !IsBarrier(q.info, q.head[0])
    ensures Leads(q, [DoIssue] + [DoDequeue(0)], Dequeue(IssueHead(q), 0))
  {
    var q1 := IssueHead(q);
    One(q, DoIssue);
    One(q1, DoDequeue(0));
    LeadsOn(q, [DoIssue], q1, [DoDequeue(0)], Dequeue(q1, 0));
  }

  lemma {:induction false} TwoTaken(q: Queue, q2: Queue)
    requires q == SubmitBack(SubmitBack(Init(DrainFlush), false), false) && q.head == [Fs(0), Fs(1)]
    requires q2 == Dequeue(IssueHead(q), 0)
    ensures q2.head == [Fs(1)] && q2.ordseq == 0 && q2.info == [R0, R0] && Dequeue(IssueHead(q2), 0) == InFlightTwo()
  {
    var q4 := Dequeue(IssueHead(q2), 0);
    assert q2.head == [Fs(1)] && q2.info == [R0, R0];
    assert q4.trace == InFlightTwo().trace;
    assert q4.place == InFlightTwo().place && q4.head == [];
    assert q4.started == InFlightTwo().started && q4.soft == InFlightTwo().soft;
  }

  lemma {:induction false} IssueTwo(q: Queue) returns (acts: seq<Action>)
    requires q == SubmitBack(SubmitBack(Init(DrainFlush), false), false)
    ensures Leads(q, acts, InFlightTwo())
  {
    assert q.head == [Fs(0), Fs(1)] && q.info == [R0, R0];
    TakeHead(q);
    var q2 := Dequeue(IssueHead(q), 0);
    TwoTaken(q, q2);
    TakeHead(q2);
    acts := [DoIssue] + [DoDequeue(0)];
    LeadsOn(q, acts, q2, acts, InFlightTwo());
    acts := acts + acts;
  }

  lemma {:induction false} ToInFlightTwo() returns (acts: seq<Action>)
    ensures Leads(Init(DrainFlush), acts, InFlightTwo())
  {
    var q0 := Init(DrainFlush);
    var q1 := SubmitBack(q0, false);
    One(q0, DoSubmitBack(false));
    var q2 := SubmitBack(q1, false);
    One(q1, DoSubmitBack(false));
    LeadsOn(q0, [DoSubmitBack(false)], q1, [DoSubmitBack(false)], q2);
    acts := [DoSubmitBack(false)] + [DoSubmitBack(false)];
    var more := IssueTwo(q2);
    LeadsOn(q0, acts, q2, more, InFlightTwo());
    acts := acts + more;
  }

  lemma {:induction false} ToRefused() returns (acts: seq<Action>)
    ensures Leads(InFlightTwo(), acts, Refused())
  {
    var q := InFlightTwo();
    var q1 := SubmitBack(q, true);
    One(q, DoSubmitBack(true));
    assert q1.head == [Fs(2)];
    var q2 := q1.(mode := NoneMode);
    One(q1, DoMode(NoneMode));
    LeadsOn(q, [DoSubmitBack(true)], q1, [DoMode(NoneMode)], q2);
    var q3 := Reject(q2);
    One(q2, DoReject);
    assert q3 == Refused();
    acts := [DoSubmitBack(true)] + [DoMode(NoneMode)];
    LeadsOn(q, acts, q2, [DoReject], q3);
    acts := acts + [DoReject];
  }

  /** The queue supports ordering again and a second barrier is queued. */
  lemma {:induction false} ToQueued() returns (acts: seq<Action>, q: Queue)
    ensures Leads(Refused(), acts, q)
    ensures q.info == [R0, R0, B2, B3] && q.head == [Fs(3)] && q.mode == DrainFlush && q.ordseq == 0
    ensures q.inFlight == 2 && At(q.place, Fs(0)) == At(q.place, Fs(1)) == Driver
    ensures Pre !in q.started && Finish(FsReq(0)) !in q.trace && End(0) !in q.trace
    ensures q.place == Refused().place[Fs(3) := Queued] && q.started == {Fs(0), Fs(1)}
  {
    var q0 := Refused();
    var q1 := q0.(mode := DrainFlush);
    One(q0, DoMode(DrainFlush));
    q := SubmitBack(q1, true);
    One(q1, DoSubmitBack(true));
    LeadsOn(q0, [DoMode(DrainFlush)], q1, [DoSubmitBack(true)], q);
    acts := [DoMode(DrainFlush)] + [DoSubmitBack(true)];
  }

  /** It is started while the two requests are still in flight. */
  lemma {:induction false} ToStarted() returns (acts: seq<Action>, q: Queue)
    ensures Leads(Refused(), acts, q)
    ensures q.info == [R0, R0, B2, B3] && q.head == [Pre, Bar, Post] && q.orig == 3
    ensures q.inFlight == 2 && q.ordseq == STARTED && At(q.place, Fs(0)) == At(q.place, Fs(1)) == Driver
    ensures Pre !in q.started && Finish(FsReq(0)) !in q.trace && End(0) !in q.trace
    ensures q.started == {Fs(0), Fs(1)} && (forall r :: At(q.place, r) == Driver <==> r == Fs(0) || r == Fs(1))
  {
    var acts0, q0 := ToQueued();
    q := StartOrdered(q0);
    StartPlaces(q0);
    One(q0, DoStart);
    LeadsOn(Refused(), acts0, q0, [DoStart], q);
    acts := acts0 + [DoStart];
  }

  lemma {:induction false} RequeuedBehind(q: Queue)
    requires q.info == [R0, R0, B2, B3] && q.orig == 3 && q.head == [Pre, Bar, Post] && q.ordseq != 0
    ensures RequeueRq(q, Fs(0)).head == [Pre, Bar, Post, Fs(0)]
  {
    assert ReqSeq(q.info, q.orig, Fs(0)) == DONE;
    assert RequeuePos(q, DONE, 3) == 3;
    assert RequeuePos(q, DONE, 2) == 3;
    assert RequeuePos(q, DONE, 1) == 3;
  }

  /** Request 0 is requeued: it lands behind the sequence. */
  lemma {:induction false} ToRequeued() returns (acts: seq<Action>, q: Queue)
    ensures Leads(Refused(), acts, q)
    ensures q.info == [R0, R0, B2, B3] && q.head == [Pre, Bar, Post, Fs(0)] && q.orig == 3
    ensures q.inFlight == 1 && q.ordseq == STARTED && At(q.place, Fs(1)) == Driver
    ensures Pre !in q.started && Finish(FsReq(0)) !in q.trace && End(0) !in q.trace
    ensures q.started == {Fs(1)} && (forall r :: At(q.place, r) == Driver <==> r == Fs(1))
  {
    var acts0, q0 := ToStarted();
    q := RequeueRq(q0, Fs(0));
    RequeuedBehind(q0);
    AtUpdate(q0.place, Fs(0), Queued);
    One(q0, DoRequeue(Fs(0)));
    LeadsOn(Refused(), acts0, q0, [DoRequeue(Fs(0))], q);
    acts := acts0 + [DoRequeue(Fs(0))];
  }

  /** Once barriers may be refused while requests are in flight, barrier safety is lost: a later
      barrier's pre-flush reaches the driver before a request submitted ahead of that barrier
      has completed. */
  lemma {:induction false} RefusalBreaksSafety() returns (acts: seq<Action>, q: Queue)
    ensures Leads(Init(DrainFlush), acts, q)
    ensures exists k :: 0 <= k < |q.trace| && q.trace[k] == Issue(PreOf(3))
                        && Finish(FsReq(0)) !in q.trace[..k] && End(0) !in q.trace[..k]
    ensures !Safe(q.trace)
  {
    var acts1 := ToInFlightTwo();
    var acts2 := ToRefused();
    LeadsOn(Init(DrainFlush), acts1, InFlightTwo(), acts2, Refused());
    var acts3, q3 := ToRequeued();
    LeadsOn(Init(DrainFlush), acts1 + acts2, Refused(), acts3, q3);
    var q4 := Complete(q3, Fs(1), 0);
    One(q3, DoComplete(Fs(1), 0));
    LeadsOn(Init(DrainFlush), acts1 + acts2 + acts3, q3, [DoComplete(Fs(1), 0)], q4);
    assert q4 == Released(q3, Fs(1), 0).(ordseq := STARTED | DRAIN);
    q := IssueHead(q4);
    One(q4, DoIssue);
    acts := acts1 + acts2 + acts3 + [DoComplete(Fs(1), 0)];
    LeadsOn(Init(DrainFlush), acts, q4, [DoIssue], q);
    acts := acts + [DoIssue];
    var k := |q4.trace|;
    assert q.trace == q4.trace + [Issue(PreOf(3))];
    assert q.trace[..k] == q4.trace;
    assert Finish(FsReq(0)) !in q4.trace && End(0) !in q4.trace;
  }

  lemma {:induction false} RequeuedBetween(q: Queue)
    requires q.info == [R0, R0, B2, B3] && q.orig == 3 && q.head == [Pre, Bar, Post, Fs(0)] && q.ordseq != 0
    ensures RequeueRq(q, Fs(1)).head == [Pre, Bar, Post, Fs(1), Fs(0)]
  {
    assert ReqSeq(q.info, q.orig, Fs(0)) == DONE && ReqSeq(q.info, q.orig, Fs(1)) == DONE;
    assert RequeuePos(q, DONE, 3) == 3;
    assert RequeuePos(q, DONE, 2) == 3;
    assert RequeuePos(q, DONE, 1) == 3;
  }

  /** And when both requests are given back the queue hangs: nothing with the driver, nothing handed out, for good. */
  lemma {:induction false} RefusalHangs() returns (acts: seq<Action>, q: Queue)
    ensures Leads(Init(DrainFlush), acts, q) && Hung(q) && q.head == [Pre, Bar, Post, Fs(1), Fs(0)]
    ensures !Enabled(q, DoStart) && !Enabled(q, DoReject) && !Enabled(q, DoIssue)
  {
    var acts1 := ToInFlightTwo();
    var acts2 := ToRefused();
    LeadsOn(Init(DrainFlush), acts1, InFlightTwo(), acts2, Refused());
    var acts3, q3 := ToRequeued();
    LeadsOn(Init(DrainFlush), acts1 + acts2, Refused(), acts3, q3);
    q := RequeueRq(q3, Fs(1));
    RequeuedBetween(q3);
    AtUpdate(q3.place, Fs(1), Queued);
    One(q3, DoRequeue(Fs(1)));
    acts := acts1 + acts2 + acts3;
    LeadsOn(Init(DrainFlush), acts, q3, [DoRequeue(Fs(1))], q);
    acts := acts + [DoRequeue(Fs(1))];
  }
}
