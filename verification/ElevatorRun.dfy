// __make_request over the elevator and the deadline scheduler in one run: hash, bios, tree and FIFO together.
module ElevatorRun {
  import opened Lists
  import opened Directions
  import D = Deadline
  import M = Merging
  import B = BioConservation
  import A = MergeDeadline
  import Runs

  type Rq = nat

  // ---------------------------------------------------------------- a front merge that joins at once

  /** A bio of n sectors at the front of r, before the tree is told. */
  function Widened(s: D.State, r: Rq, n: nat): D.State {
    if r !in s.info || s.info[r].sector < n then s
    else s.(info := s.info[r := s.info[r].(sector := s.info[r].sector - n, size := s.info[r].size + n)])
  }

  /** attempt_front_merge: r, still at its old place in the tree, becomes part of p. */
  function JoinFront(s: D.State, p: Rq, r: Rq, n: nat): D.State { D.MergeRequests(Widened(s, r, n), p, r) }

  /** Joining before the tree is repositioned is joining first and growing at the end, but for what r remembers. */
  lemma {:induction false} JoinFrontIs(s: D.State, p: Rq, r: Rq, n: nat)
    requires p in s.info && r in s.info && p != r && n <= s.info[r].sector
    ensures var s1 := D.BackMerge(D.MergeRequests(s, p, r), p, n);
            JoinFront(s, p, r, n) == s1.(info := s1.info[r := Widened(s, r, n).info[r]])
  {
    var w := Widened(s, r, n);
    var d := D.DirOf(s.info, r);
    assert D.MergedFifo(At(s.fifo, d), w.info, p, r) == D.MergedFifo(At(s.fifo, d), s.info, p, r);
    var s1 := D.BackMerge(D.MergeRequests(s, p, r), p, n);
    assert JoinFront(s, p, r, n).info == s1.info[r := w.info[r]];
  }

  /** What a request that is no longer queued remembers does not matter. */
  lemma {:induction false} DeadInfo(s: D.State, r: Rq, i: D.Info)
    requires D.Coherent(s) && r !in s.fifo.read && r !in s.fifo.write
    ensures D.Coherent(s.(info := s.info[r := i]))
  {
    var info := s.info[r := i];
    D.InfoKeepsTree(s.tree.read, s.info, info, Read);
    D.InfoKeepsTree(s.tree.write, s.info, info, Write);
  }

  lemma {:induction false} JoinFrontKeeps(s: D.State, d: Dir, p: Rq, r: Rq, n: nat)
    requires D.Coherent(s) && p in At(s.tree, d) && r in At(s.tree, d) && p != r
    requires r in s.info && n <= s.info[r].sector
    ensures D.Coherent(JoinFront(s, p, r, n))
  {
    D.FifoDir(s, D.NONE, d, p);
    D.FifoDir(s, D.NONE, d, r);
    D.MergeKeeps(s, d, p, r);
    D.MergedFifoIs(At(s.fifo, d), s.info, p, r);
    var s1 := D.MergeRequests(s, p, r);
    D.BackMergeKeeps(s1, p, n);
    JoinFrontIs(s, p, r, n);
    DeadInfo(D.BackMerge(s1, p, n), r, Widened(s, r, n).info[r]);
  }

  lemma {:induction false} WidenedAgrees(q: M.Queue, s: D.State, r: Rq, bio: M.Bio)
    requires A.Agree(q, s) && r in q.sched && r in q.reqs && bio.sector + bio.size == q.reqs[r].sector
    ensures r in s.info && bio.size <= s.info[r].sector
    ensures A.Agree(M.Prepend(q, r, bio), Widened(s, r, bio.size))
  {
    assert A.Match(q.reqs, s.info, r);
    var q1, s1 := M.Prepend(q, r, bio), Widened(s, r, bio.size);
    A.ChangedAgree(q, s, q1, s1, r, q1.reqs[r], s1.info[r]);
  }

  /** The request that was just widened goes into the one before it. */
  lemma {:induction false} JoinFrontAgrees(q: M.Queue, s: D.State, h: M.HashFn, p: Rq, r: Rq, bio: M.Bio)
    requires A.Agree(q, s) && D.Coherent(s) && p in q.sched && r in q.sched && p != r && p in q.reqs && r in q.reqs
    requires q.reqs[p].write == q.reqs[r].write && bio.sector + bio.size == q.reqs[r].sector
    ensures A.Agree(M.Join(M.Prepend(q, r, bio), h, p, r), JoinFront(s, p, r, bio.size))
    ensures D.Coherent(JoinFront(s, p, r, bio.size))
  {
    var n := bio.size;
    var q1, w := M.Prepend(q, r, bio), Widened(s, r, n);
    WidenedAgrees(q, s, r, bio);
    assert A.Match(q.reqs, s.info, p) && A.Match(q.reqs, s.info, r);
    var d := s.info[r].dir;
    A.BothQueued(q, s, p, d);
    A.BothQueued(q, s, r, d);
    D.MergedFifoIs(At(s.fifo, d), w.info, p, r);
    B.JoinReqs(q1, h, p, r);
    var q', s' := M.Join(q1, h, p, r), JoinFront(s, p, r, n);
    A.JoinedAgree(q1, w, q', s', p, r, M.Grown(q1, p, r).reqs[p], s'.info[p]);
    JoinFrontKeeps(s, d, p, r, n);
  }

  // ---------------------------------------------------------------- one operation on both

  datatype Both = Both(w: B.World, s: D.State)

  /** What does not follow from the state: the segment limits, the ids of new requests, the time. */
  datatype Op =
    | Submit(bio: M.Bio, segsOk: bool, joinOk: bool)
    | New(id: nat, r: Rq, now: int)
    | Dispatch(now: int)
    | Finish(r: Rq)

  /** The choices of __make_request, all of them the deadline scheduler's. */
  ghost function Chosen(s: D.State, bio: M.Bio, m: M.Merge, segsOk: bool, joinOk: bool): M.Choices {
    var front := A.Lookup(s, bio);
    match m
    case NoMerge => M.Choices(front, segsOk, None, joinOk, None)
    case BackMerge(r) =>
      M.Choices(front, segsOk, D.NextOf(At(s.tree, D.DirOf(s.info, r)), r), joinOk, A.Displaced(s, r, bio.size))
    case FrontMerge(r) =>
      M.Choices(front, segsOk, A.FormerOf(At(s.tree, D.DirOf(s.info, r)), r), joinOk, A.Displaced(s, r, bio.size))
  }

  ghost predicate Inv(b: Both, h: M.HashFn, limit: nat) {
    B.Inv(b.w, h, limit) && D.Coherent(b.s) && A.Agree(b.w.q, b.s)
  }

  ghost predicate Enabled(b: Both, op: Op) {
    match op
    case Submit(bio, _, _) => bio.id !in b.w.used
    case New(id, r, _) => id in b.w.waiting && r !in b.w.q.reqs && r !in b.s.info
    case Dispatch(_) => D.Busy(b.s)
    case Finish(r) => r in b.w.q.reqs && r !in b.w.q.sched
  }

  ghost function BackOn(q: M.Queue, s: D.State, limit: nat, bio: M.Bio, c: M.Choices, r: Rq): D.State {
    if M.TooLarge(q, r, bio, limit) || !c.segsOk then s
    else if c.neighbour.Some? && M.CanJoin(M.Append(q, r, bio), r, c.neighbour.value, limit, c.joinOk) then
      D.MergeRequests(D.BackMerge(s, r, bio.size), r, c.neighbour.value)
    else D.BackMerge(s, r, bio.size)
  }

  ghost function FrontOn(q: M.Queue, s: D.State, limit: nat, bio: M.Bio, c: M.Choices, r: Rq): D.State {
    if M.TooLarge(q, r, bio, limit) || !c.segsOk then s
    else if c.neighbour.Some? && M.CanJoin(M.Prepend(q, r, bio), c.neighbour.value, r, limit, c.joinOk) then
      JoinFront(s, c.neighbour.value, r, bio.size)
    else D.FrontMerge(s, r, bio.size)
  }

  /** The scheduler's side of __make_request. */
  ghost function SubmitOn(q: M.Queue, s: D.State, limit: nat, bio: M.Bio, c: M.Choices, m: M.Merge): D.State {
    match m
    case BackMerge(r) => BackOn(q, s, limit, bio, c, r)
    case FrontMerge(r) => FrontOn(q, s, limit, bio, c, r)
    case NoMerge => s
  }

  /** The request that a new one dispatches, if it meets an alias. */
  ghost function Met(s: D.State, r: Rq, i: D.Info): Option<Rq> {
    D.Alias(At(s.tree, i.dir), s.info[r := i], i.sector)
  }

  ghost function InfoFor(bio: M.Bio, t: D.Tunables, now: int): D.Info {
    var d := A.DirOf(bio.write);
    D.Info(d, bio.sector, bio.size, now + At(t.expire, d))
  }

  ghost function Step(b: Both, h: M.HashFn, limit: nat, t: D.Tunables, op: Op): Both
    requires Inv(b, h, limit) && Enabled(b, op)
  {
    match op
    case Submit(bio, segsOk, joinOk) =>
      var (m, q1) := M.ElvMerge(b.w.q, h, bio, A.Lookup(b.s, bio));
      var c := Chosen(b.s, bio, m, segsOk, joinOk);
      Both(B.Submitted(b.w, h, limit, bio, c), SubmitOn(q1, b.s, limit, bio, c, m))
    case New(id, r, now) =>
      var i := InfoFor(b.w.waiting[id], t, now);
      var w := B.Step(b.w, h, limit, B.NewOp(id, r));
      Both(w.(q := M.Evict(w.q, Met(b.s, r, i))), D.Add(b.s, r, i))
    case Dispatch(now) =>
      D.ChoiceQueued(b.s, t, now);
      Both(b.w.(q := M.Dispatched(b.w.q, D.Choice(b.s, t, now).0)), D.Dispatch(b.s, t, now))
    case Finish(r) => Both(B.Finished(b.w, r), b.s)
  }

  // ---------------------------------------------------------------- every operation keeps everything

  lemma {:induction false} SameAgree(q: M.Queue, q': M.Queue, s: D.State)
    requires A.Agree(q, s) && q'.sched == q.sched
    requires forall r :: r in q.sched ==> A.Match(q'.reqs, s.info, r)
    ensures A.Agree(q', s)
  {
  }

  lemma {:induction false} CloseAgrees(q: M.Queue, s: D.State, r: Rq)
    requires A.Agree(q, s)
    ensures A.Agree(M.Close(q, r), s)
  {
    var q' := M.Close(q, r);
    assert q'.sched == q.sched;
    forall z | z in q.sched ensures A.Match(q'.reqs, s.info, z) { assert A.Match(q.reqs, s.info, z); }
  }

  lemma {:induction false} InTree(q: M.Queue, s: D.State, r: Rq)
    requires A.Agree(q, s) && D.Coherent(s) && r in q.sched
    ensures r in s.info && r in At(s.tree, s.info[r].dir) && A.Match(q.reqs, s.info, r)
  {
    assert A.Match(q.reqs, s.info, r);
    A.BothQueued(q, s, r, s.info[r].dir);
  }

  lemma {:induction false} BackKeeps(q: M.Queue, s: D.State, h: M.HashFn, limit: nat, bio: M.Bio, c: M.Choices, r: Rq)
    requires A.Agree(q, s) && D.Coherent(s) && B.FitsBack(q, r, bio) && B.Others(q, c, r)
    ensures A.Agree(M.SubmitBack(q, h, limit, bio, c, r).1, BackOn(q, s, limit, bio, c, r))
    ensures D.Coherent(BackOn(q, s, limit, bio, c, r))
  {
    if M.TooLarge(q, r, bio, limit) || !c.segsOk {
      CloseAgrees(q, s, r);
    } else {
      var q1, s1 := M.Append(q, r, bio), D.BackMerge(s, r, bio.size);
      A.AppendAgrees(q, s, r, bio);
      D.BackMergeKeeps(s, r, bio.size);
      if c.neighbour.Some? && M.CanJoin(q1, r, c.neighbour.value, limit, c.joinOk) {
        var n := c.neighbour.value;
        A.JoinAgrees(q1, s1, h, r, n);
        InTree(q1, s1, r);
        InTree(q1, s1, n);
        D.MergeKeeps(s1, s1.info[r].dir, r, n);
      } else {
        B.HashOnly(q1, h, r);
        SameAgree(q1, M.MergedBack(q1, h, r), s1);
      }
    }
  }

  lemma {:induction false} FrontKeeps(q: M.Queue, s: D.State, h: M.HashFn, limit: nat, bio: M.Bio, c: M.Choices, r: Rq)
    requires A.Agree(q, s) && D.Coherent(s) && B.FitsFront(q, r, bio) && B.Others(q, c, r)
    requires c.out == A.Displaced(s, r, bio.size)
    ensures A.Agree(M.SubmitFront(q, h, limit, bio, c, r).1, FrontOn(q, s, limit, bio, c, r))
    ensures D.Coherent(FrontOn(q, s, limit, bio, c, r))
  {
    InTree(q, s, r);
    if M.TooLarge(q, r, bio, limit) || !c.segsOk {
      CloseAgrees(q, s, r);
    } else {
      var q1 := M.Prepend(q, r, bio);
      if c.neighbour.Some? && M.CanJoin(q1, c.neighbour.value, r, limit, c.joinOk) {
        assert c.neighbour.value in q.reqs;
        JoinFrontAgrees(q, s, h, c.neighbour.value, r, bio);
      } else {
        A.PrependAgrees(q, s, r, bio);
        D.FrontMergeKeeps(s, r, bio.size);
        var q2 := M.Evict(q1, c.out);
        SameAgree(q2, q2.(last := Some(r)), D.FrontMerge(s, r, bio.size));
      }
    }
  }

  lemma {:induction false} ChosenFits(q: M.Queue, s: D.State, bio: M.Bio, m: M.Merge, segsOk: bool, joinOk: bool)
    requires A.Agree(q, s) && D.Coherent(s)
    ensures var c := Chosen(s, bio, m, segsOk, joinOk);
            B.FrontCandidate(q, bio, c.front) && c.front == A.Lookup(s, bio) && (m != M.NoMerge ==> B.Others(q, c, m.r))
  {
    A.CandidateFits(q, s, bio);
    if m != M.NoMerge { A.SuppliedFits(q, s, bio, Chosen(s, bio, m, segsOk, joinOk), m.r); }
  }

  lemma {:induction false} SubmitKeeps(b: Both, h: M.HashFn, limit: nat, t: D.Tunables, bio: M.Bio, segsOk: bool,
                                       joinOk: bool)
    requires Inv(b, h, limit) && bio.id !in b.w.used
    ensures Inv(Step(b, h, limit, t, Submit(bio, segsOk, joinOk)), h, limit)
  {
    var (m, q1) := M.ElvMerge(b.w.q, h, bio, A.Lookup(b.s, bio));
    var c := Chosen(b.s, bio, m, segsOk, joinOk);
    ChosenFits(b.w.q, b.s, bio, m, segsOk, joinOk);
    B.StepKeeps(b.w, h, limit, B.SubmitOp(bio, c));
    B.ElvMergeFits(b.w.q, h, bio, c.front);
    SameAgree(b.w.q, q1, b.s);
    match m
    case BackMerge(r) => BackKeeps(q1, b.s, h, limit, bio, c, r);
    case FrontMerge(r) => FrontKeeps(q1, b.s, h, limit, bio, c, r);
    case NoMerge =>
  }

  lemma {:induction false} EvictKeeps(w: B.World, h: M.HashFn, limit: nat, a: Option<Rq>)
    requires B.Inv(w, h, limit) && (a.Some? ==> a.value in w.q.sched)
    ensures B.Inv(w.(q := M.Evict(w.q, a)), h, limit)
  {
    if a.Some? { B.StepKeeps(w, h, limit, B.DispatchOp(a.value)); }
  }

  lemma {:induction false} NewKeeps(b: Both, h: M.HashFn, limit: nat, t: D.Tunables, id: nat, r: Rq, now: int)
    requires Inv(b, h, limit) && Enabled(b, New(id, r, now))
    ensures Inv(Step(b, h, limit, t, New(id, r, now)), h, limit)
  {
    var bio := b.w.waiting[id];
    var i := InfoFor(bio, t, now);
    var a := Met(b.s, r, i);
    var w := B.Step(b.w, h, limit, B.NewOp(id, r));
    B.StepKeeps(b.w, h, limit, B.NewOp(id, r));
    A.InsertAgrees(b.w.q, b.s, h, r, M.NewReq(bio), i);
    A.InsertOnly(b.w.q, h, r, M.NewReq(bio));
    D.AliasIs(At(b.s.tree, i.dir), b.s.info[r := i], i.sector);
    if a.Some? { A.Held(b.w.q, b.s, i.dir, a.value); }
    EvictKeeps(w, h, limit, a);
    D.AddKeeps(b.s, r, i);
  }

  lemma {:induction false} DispatchKeeps(b: Both, h: M.HashFn, limit: nat, t: D.Tunables, now: int)
    requires Inv(b, h, limit) && D.Busy(b.s)
    ensures Inv(Step(b, h, limit, t, Dispatch(now)), h, limit)
  {
    D.ChoiceQueued(b.s, t, now);
    var r := D.Choice(b.s, t, now).0;
    A.Held(b.w.q, b.s, b.s.info[r].dir, r);
    B.StepKeeps(b.w, h, limit, B.DispatchOp(r));
    A.DispatchAgrees(b.w.q, b.s, t, now);
    D.DispatchKeeps(b.s, t, now);
  }

  lemma {:induction false} FinishKeeps(b: Both, h: M.HashFn, limit: nat, t: D.Tunables, r: Rq)
    requires Inv(b, h, limit) && Enabled(b, Finish(r))
    ensures Inv(Step(b, h, limit, t, Finish(r)), h, limit)
  {
    B.StepKeeps(b.w, h, limit, B.FinishOp(r));
    var q' := B.Finished(b.w, r).q;
    forall z | z in b.w.q.sched ensures A.Match(q'.reqs, b.s.info, z) { assert A.Match(b.w.q.reqs, b.s.info, z); }
    SameAgree(b.w.q, q', b.s);
  }

  lemma {:induction false} StepKeeps(b: Both, h: M.HashFn, limit: nat, t: D.Tunables, op: Op)
    requires Inv(b, h, limit) && Enabled(b, op)
    ensures Inv(Step(b, h, limit, t, op), h, limit)
  {
    match op
    case Submit(bio, segsOk, joinOk) => SubmitKeeps(b, h, limit, t, bio, segsOk, joinOk);
    case New(id, r, now) => NewKeeps(b, h, limit, t, id, r, now);
    case Dispatch(now) => DispatchKeeps(b, h, limit, t, now);
    case Finish(r) => FinishKeeps(b, h, limit, t, r);
  }

  /** One operation; one that cannot happen changes nothing. */
  ghost function Next(b: Both, h: M.HashFn, limit: nat, t: D.Tunables, op: Op): Both {
    if Inv(b, h, limit) && Enabled(b, op) then Step(b, h, limit, t, op) else b
  }

  /**
   * In every run of submissions, allocations, dispatch calls and completions over the deadline scheduler the hash is
   * exact, every bio is where it should be, tree and FIFO are coherent, and elevator and scheduler agree on what is
   * queued; nothing is asked of the scheduler that it does not supply.
   */
  lemma {:induction false} AlwaysKept(b: Both, h: M.HashFn, limit: nat, t: D.Tunables, ops: seq<Op>, n: nat)
    requires Inv(b, h, limit) && n <= |ops|
    ensures Inv(Runs.After((v, op) => Next(v, h, limit, t, op), b, ops, n), h, limit)
  {
    var step := (v, op) => Next(v, h, limit, t, op);
    var holds := (v: Both) => Inv(v, h, limit);
    forall v, op ensures holds(v) ==> holds(step(v, op)) {
      if holds(v) && Enabled(v, op) { StepKeeps(v, h, limit, t, op); }
    }
    Runs.Invariant(step, holds, b, ops, n);
  }

  /** The empty queue over the empty scheduler. */
  lemma {:induction false} StartsKept(h: M.HashFn, limit: nat, buckets: nat)
    requires buckets > 0 && forall x :: h(x) < buckets
    ensures var q := M.Queue(map[], {}, seq(buckets, _ => []), map[], None);
            Inv(Both(B.World(q, map[], map[], {}, {}), D.Init()), h, limit)
  {
    B.StartsKept(h, limit, buckets);
    D.InitCoherent();
  }
}
