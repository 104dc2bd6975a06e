// A barrier that has begun ends: how many hand-outs, dequeues and completions its sequence can take.
module BarrierEnds {
  import opened Barrier

  /** The steps a request still has to take: to be handed out, taken off the queue and completed. */
  function Left(place: map<Rq, Place>, started: set<Rq>, r: Rq): nat {
    match At(place, r)
    case Queued => if r in started then 2 else 3
    case Driver => 1
    case _ => 0
  }

  /** The steps of the file-system requests before number n. */
  function LeftBefore(place: map<Rq, Place>, started: set<Rq>, n: nat): nat {
    if n == 0 then 0 else LeftBefore(place, started, n - 1) + Left(place, started, Fs(n - 1))
  }

  /** The steps that stand between the barrier and its end. */
  function Work(place: map<Rq, Place>, started: set<Rq>, orig: nat): nat {
    LeftBefore(place, started, orig) + Left(place, started, Pre) + Left(place, started, Bar)
    + Left(place, started, Post)
  }

  /** The step is one of them; to look at a request again is not. */
  ghost predicate Advances(q: Queue, a: Action)
    requires Enabled(q, a)
  {
    (a.DoIssue? && q.head[0] !in q.started) || a.DoDequeue? || a.DoComplete?
  }

  /** Only request r may have moved. */
  ghost predicate Alike(place: map<Rq, Place>, started: set<Rq>, place': map<Rq, Place>, started': set<Rq>, r: Rq) {
    forall x {:trigger At(place', x)} :: x != r ==> At(place', x) == At(place, x) && (x in started' <==> x in started)
  }

  lemma {:induction false} LeftAlike(place: map<Rq, Place>, started: set<Rq>, place': map<Rq, Place>,
                                     started': set<Rq>, r: Rq, n: nat)
    requires Alike(place, started, place', started', r)
    ensures LeftBefore(place', started', n) + (if r.Fs? && r.id < n then Left(place, started, r) else 0) ==
            LeftBefore(place, started, n) + (if r.Fs? && r.id < n then Left(place', started', r) else 0)
  {
    if n > 0 {
      LeftAlike(place, started, place', started', r, n - 1);
    }
  }

  lemma {:induction false} WorkAlike(place: map<Rq, Place>, started: set<Rq>, place': map<Rq, Place>,
                                     started': set<Rq>, r: Rq, orig: nat)
    requires Alike(place, started, place', started', r)
    ensures Rank(orig, r) < 5 ==>
              Work(place', started', orig) + Left(place, started, r) ==
              Work(place, started, orig) + Left(place', started', r)
    ensures Rank(orig, r) == 5 ==> Work(place', started', orig) == Work(place, started, orig)
  {
    LeftAlike(place, started, place', started', r, orig);
  }

  /** What has been handed out comes before the barrier's end. */
  lemma {:induction false} StartedEarly(q: Queue, r: Rq)
    requires Structure(q) && Sequence(q) && q.ordseq != 0 && r in q.started
    ensures Rank(q.orig, r) < 5
  {
    assert IsBarrier(q.info, Fs(q.orig));
  }

  lemma {:induction false} RecordedPlace(q: Queue, bit: bv8, err: int)
    ensures var q' := CompleteSeq(q, bit, err);
            q'.ordseq != 0 ==> q'.place == q.place && q'.started == q.started && q'.orig == q.orig
  {
  }

  lemma {:induction false} CheckedPlace(q: Queue)
    ensures var q' := DrainCheck(q);
            q'.ordseq != 0 ==> q'.place == q.place && q'.started == q.started && q'.orig == q.orig
  {
    RecordedPlace(q, DRAIN, 0);
  }

  /** A step of the sequence is not handed out before the drain. */
  lemma {:induction false} ProxyChecked(q: Queue, r: Rq, err: int)
    requires !r.Fs? && r in q.started && Bits(q.ordseq, q.pre, q.post, q.place, q.started)
    ensures DrainCheck(Released(q, r, err)) == Released(q, r, err)
  {
    assert q.ordseq & DRAIN != 0;
  }

  lemma {:induction false} CompletePlace(q: Queue, r: Rq, err: int, q': Queue)
    requires q' == Complete(q, r, err) && q'.ordseq != 0
    requires r.Fs? || (r in q.started && Bits(q.ordseq, q.pre, q.post, q.place, q.started))
    ensures q'.place == q.place[r := if r.Fs? then Over else Nowhere] && q'.started == q.started - {r}
    ensures q'.orig == q.orig
  {
    var q1 := Released(q, r, err);
    assert q1.place == q.place[r := if r.Fs? then Over else Nowhere] && q1.started == q.started - {r};
    if r.Fs? {
      CheckedPlace(q1);
    } else {
      ProxyChecked(q, r, err);
      RecordedPlace(q1, SeqBit(r), err);
    }
  }

  lemma {:induction false} IssueOne(q: Queue)
    requires Structure(q) && Sequence(q) && q.ordseq != 0 && Enabled(q, DoIssue) && q.head[0] !in q.started
    ensures Work(IssueHead(q).place, IssueHead(q).started, q.orig) + 1 == Work(q.place, q.started, q.orig)
  {
    var q' := IssueHead(q);
    OfferedIsDue(q);
    assert At(q.place, q.head[0]) == Queued;
    WorkAlike(q.place, q.started, q'.place, q'.started, q.head[0], q.orig);
  }

  lemma {:induction false} DequeueOne(q: Queue, k: nat)
    requires Structure(q) && Sequence(q) && q.ordseq != 0 && Enabled(q, DoDequeue(k))
    ensures Work(Dequeue(q, k).place, Dequeue(q, k).started, q.orig) + 1 == Work(q.place, q.started, q.orig)
  {
    var q' := Dequeue(q, k);
    AtUpdate(q.place, q.head[k], Driver);
    assert At(q.place, q.head[k]) == Queued;
    StartedEarly(q, q.head[k]);
    WorkAlike(q.place, q.started, q'.place, q'.started, q.head[k], q.orig);
  }

  lemma {:induction false} CompletedLess(place: map<Rq, Place>, started: set<Rq>, orig: nat, r: Rq,
                                         place': map<Rq, Place>, started': set<Rq>)
    requires At(place, r) == Driver
    requires place' == place[r := if r.Fs? then Over else Nowhere] && started' == started - {r}
    ensures Rank(orig, r) < 5 ==> Work(place', started', orig) + 1 == Work(place, started, orig)
  {
    AtUpdate(place, r, if r.Fs? then Over else Nowhere);
    WorkAlike(place, started, place', started', r, orig);
  }

  lemma {:induction false} CompleteOne(q: Queue, r: Rq, err: int)
    requires Structure(q) && Sequence(q) && q.ordseq != 0 && At(q.place, r) == Driver
    requires Complete(q, r, err).ordseq != 0
    ensures Complete(q, r, err).orig == q.orig
    ensures Work(Complete(q, r, err).place, Complete(q, r, err).started, q.orig) + 1 ==
            Work(q.place, q.started, q.orig)
  {
    var q' := Complete(q, r, err);
    CompletePlace(q, r, err, q');
    CompletedLess(q.place, q.started, q.orig, r, q'.place, q'.started);
    StartedEarly(q, r);
  }

  lemma {:induction false} AdvanceOne(q: Queue, a: Action)
    requires Structure(q) && Sequence(q) && q.ordseq != 0 && Enabled(q, a) && Advances(q, a)
    requires Step(q, a).ordseq != 0
    ensures Step(q, a).orig == q.orig
    ensures Work(Step(q, a).place, Step(q, a).started, q.orig) + 1 == Work(q.place, q.started, q.orig)
  {
    match a
    case DoIssue => IssueOne(q);
    case DoDequeue(k) => DequeueOne(q, k);
    case DoComplete(r, err) => CompleteOne(q, r, err);
  }

  lemma {:induction false} LaterWaits(q: Queue, id: nat, p: Place)
    requires Structure(q) && Sequence(q) && q.ordseq != 0 && id >= q.orig
    ensures Work(q.place[Fs(id) := p], q.started, q.orig) == Work(q.place, q.started, q.orig)
  {
    AtUpdate(q.place, Fs(id), p);
    WorkAlike(q.place, q.started, q.place[Fs(id) := p], q.started, Fs(id), q.orig);
  }

  lemma {:induction false} RequeueCosts(place: map<Rq, Place>, started: set<Rq>, orig: nat, r: Rq)
    requires At(place, r) == Driver
    ensures Work(place[r := Queued], started - {r}, orig) <= Work(place, started, orig) + 2
  {
    AtUpdate(place, r, Queued);
    WorkAlike(place, started, place[r := Queued], started - {r}, r, orig);
  }

  /** What is submitted or dispatched is behind the barrier; a request given back adds two steps at most. */
  lemma {:induction false} OthersWait(q: Queue, a: Action)
    requires Structure(q) && Sequence(q) && q.ordseq != 0 && Enabled(q, a) && !Advances(q, a)
    ensures Step(q, a).orig == q.orig
    ensures Work(Step(q, a).place, Step(q, a).started, q.orig) <=
            Work(q.place, q.started, q.orig) + if a.DoRequeue? then 2 else 0
  {
    match a
    case DoSubmitSort => LaterWaits(q, |q.info|, Sched);
    case DoSubmitBack(barrier) => LaterWaits(q, |q.info|, Queued);
    case DoDispatch(id, k) =>
      assert Separated(q.info, q.place, q.orig, id);
      LaterWaits(q, id, Queued);
    case DoRequeue(r) => RequeueCosts(q.place, q.started, q.orig, r);
    case _ =>
  }

  ghost function WorkOf(q: Queue): nat { Work(q.place, q.started, q.orig) }

  lemma {:induction false} StepWorks(q: Queue, a: Action)
    requires Inv(q) && q.ordseq != 0 && Enabled(q, a) && Step(q, a).ordseq != 0
    ensures WorkOf(Step(q, a)) + (if Advances(q, a) then 1 else 0) <= WorkOf(q) + (if a.DoRequeue? then 2 else 0)
  {
    if Advances(q, a) { AdvanceOne(q, a); } else { OthersWait(q, a); }
  }

  ghost function AdvanceOf(qs: seq<Queue>, acts: seq<Action>, i: nat): nat
    requires Run(qs, acts) && i < |acts|
  {
    assert Enabled(qs[i], acts[i]);
    if Advances(qs[i], acts[i]) then 1 else 0
  }

  /** Which steps of a run advance the barrier, and which give a request back. */
  ghost function Advancing(qs: seq<Queue>, acts: seq<Action>): (c: seq<nat>)
    requires Run(qs, acts)
    ensures |c| == |acts| && forall i :: 0 <= i < |c| ==> c[i] == AdvanceOf(qs, acts, i)
  {
    seq(|acts|, i requires 0 <= i < |acts| => AdvanceOf(qs, acts, i))
  }

  function GivingBack(acts: seq<Action>): (c: seq<nat>)
    ensures |c| == |acts| && forall i :: 0 <= i < |c| ==> c[i] == if acts[i].DoRequeue? then 1 else 0
  {
    seq(|acts|, i requires 0 <= i < |acts| => if acts[i].DoRequeue? then 1 else 0)
  }

  function Count(c: seq<nat>, m: nat, n: nat): nat
    requires m <= n <= |c|
  {
    if n == m then 0 else Count(c, m, n - 1) + c[n - 1]
  }

  lemma {:induction false} CountsUp(work: seq<nat>, up: seq<nat>, down: seq<nat>, m: nat, n: nat)
    requires |work| == |up| + 1 && |down| == |up| && m <= n <= |up|
    requires forall i :: m <= i < n ==> work[i + 1] + down[i] <= work[i] + 2 * up[i]
    ensures Count(down, m, n) + work[n] <= work[m] + 2 * Count(up, m, n)
  {
    if n > m { CountsUp(work, up, down, m, n - 1); }
  }

  lemma {:induction false} RunWorks(qs: seq<Queue>, acts: seq<Action>, i: nat)
    requires Run(qs, acts) && i < |acts| && Guarded(qs, acts, i) && qs[i].ordseq != 0 && qs[i + 1].ordseq != 0
    ensures WorkOf(qs[i + 1]) + AdvanceOf(qs, acts, i) <= WorkOf(qs[i]) + (if acts[i].DoRequeue? then 2 else 0)
  {
    RunKeeps(qs, acts, i);
    assert Enabled(qs[i], acts[i]);
    StepWorks(qs[i], acts[i]);
  }

  /**
   * A barrier ends in time: while it is in progress, every step that advances it uses up one of the steps it had left,
   * and only a request that the driver gives back adds to them, two at a time.
   */
  lemma {:induction false} EndsInTime(qs: seq<Queue>, acts: seq<Action>, m: nat, n: nat)
    requires Run(qs, acts) && m <= n <= |acts| && Guarded(qs, acts, n)
    requires forall i :: m <= i <= n ==> qs[i].ordseq != 0
    ensures Count(Advancing(qs, acts), m, n) + WorkOf(qs[n]) <= WorkOf(qs[m]) + 2 * Count(GivingBack(acts), m, n)
  {
    var work := seq(|qs|, i requires 0 <= i < |qs| => WorkOf(qs[i]));
    var up, down := GivingBack(acts), Advancing(qs, acts);
    forall i | m <= i < n ensures work[i + 1] + down[i] <= work[i] + 2 * up[i] {
      RunWorks(qs, acts, i);
    }
    CountsUp(work, up, down, m, n);
  }

  /** Some step of the sequence is still to come, so it is queued or with the driver. */
  lemma {:induction false} NothingQueued(q: Queue)
    requires Inv(q) && q.ordseq != 0 && |q.head| == 0
    ensures Busy(q.place)
  {
  }

  /** And it can always be advanced. */
  lemma {:induction false} CanAdvance(q: Queue) returns (a: Action)
    requires Inv(q) && q.ordseq != 0
    ensures Enabled(q, a) && Advances(q, a)
  {
    if Busy(q.place) {
      var r :| At(q.place, r) == Driver;
      a := DoComplete(r, 0);
    } else {
      if |q.head| == 0 { NothingQueued(q); }
      NeverStuck(q);
      a := if q.head[0] in q.started then DoDequeue(0) else DoIssue;
    }
  }
}
