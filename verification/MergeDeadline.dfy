// The merge hash of elevator.c over the deadline scheduler: what the hash takes from the scheduler is what its tree
// supplies, and every operation keeps the two views of the queued requests in agreement.
module MergeDeadline {
  import opened Lists
  import opened Directions
  import D = Deadline
  import M = Merging
  import B = BioConservation

  // ---------------------------------------------------------------- agreement

  predicate Match(reqs: map<nat, M.Req>, info: map<nat, D.Info>, r: nat) {
    && r in reqs && r in info && reqs[r].sector == info[r].sector && reqs[r].size == info[r].size
    && reqs[r].write == (info[r].dir == Write)
  }

  /** The scheduler holds the same requests, at the same sectors and of the same sizes and directions. */
  ghost predicate Agree(q: M.Queue, s: D.State) {
    && (forall r :: r in q.sched <==> r in s.fifo.read || r in s.fifo.write)
    && (forall r :: r in q.sched ==> Match(q.reqs, s.info, r))
  }

  function DirOf(write: bool): Dir { if write then Write else Read }

  lemma {:induction false} Held(q: M.Queue, s: D.State, d: Dir, r: nat)
    requires Agree(q, s) && D.Coherent(s) && r in At(s.tree, d)
    ensures r in q.sched && Match(q.reqs, s.info, r) && s.info[r].dir == d
  {
    D.FifoDir(s, D.NONE, d, r);
  }

  // ---------------------------------------------------------------- what the scheduler supplies

  /** The look-up of deadline_merge: the request that starts where the bio ends. */
  function Lookup(s: D.State, bio: M.Bio): Option<nat> {
    D.Alias(At(s.tree, DirOf(bio.write)), s.info, bio.sector + bio.size)
  }

  /** rb_prev */
  function FormerOf(tree: seq<nat>, r: nat): Option<nat> {
    if |tree| < 2 then None else if tree[1] == r then Some(tree[0]) else FormerOf(tree[1..], r)
  }

  lemma {:induction false} FormerIn(tree: seq<nat>, r: nat)
    requires NoDup(tree)
    ensures FormerOf(tree, r).Some? ==> FormerOf(tree, r).value in tree && FormerOf(tree, r).value != r
  {
    if |tree| >= 2 && tree[1] != r { FormerIn(tree[1..], r); }
  }

  /** The request that a front merge of n sectors runs into. */
  function Displaced(s: D.State, r: nat, n: nat): Option<nat> {
    if r in s.info && n <= s.info[r].sector then
      var d, sector := s.info[r].dir, s.info[r].sector - n;
      D.Alias(Without(At(s.tree, d), r), s.info[r := s.info[r].(sector := sector, size := s.info[r].size + n)], sector)
    else None
  }

  /** The choices of __make_request as the deadline scheduler makes them, for a merge with r. */
  predicate Supplied(s: D.State, bio: M.Bio, c: M.Choices, r: nat) {
    var tree := At(s.tree, D.DirOf(s.info, r));
    && c.front == Lookup(s, bio) && c.out == Displaced(s, r, bio.size)
    && (c.neighbour == D.NextOf(tree, r) || c.neighbour == FormerOf(tree, r))
  }

  lemma {:induction false} CandidateFits(q: M.Queue, s: D.State, bio: M.Bio)
    requires Agree(q, s) && D.Coherent(s)
    ensures B.FrontCandidate(q, bio, Lookup(s, bio))
  {
    var d := DirOf(bio.write);
    D.AliasIs(At(s.tree, d), s.info, bio.sector + bio.size);
    if Lookup(s, bio).Some? { Held(q, s, d, Lookup(s, bio).value); }
  }

  lemma {:induction false} NeighboursFit(q: M.Queue, s: D.State, d: Dir, r: nat)
    requires Agree(q, s) && D.Coherent(s)
    ensures D.NextOf(At(s.tree, d), r).Some? ==>
            D.NextOf(At(s.tree, d), r).value in q.sched && D.NextOf(At(s.tree, d), r).value != r
    ensures FormerOf(At(s.tree, d), r).Some? ==>
            FormerOf(At(s.tree, d), r).value in q.sched && FormerOf(At(s.tree, d), r).value != r
  {
    var tree := At(s.tree, d);
    IncreasingNoDup(tree, D.Sectors(s.info));
    D.NextOfIn(tree, r);
    FormerIn(tree, r);
    if D.NextOf(tree, r).Some? { Held(q, s, d, D.NextOf(tree, r).value); }
    if FormerOf(tree, r).Some? { Held(q, s, d, FormerOf(tree, r).value); }
  }

  lemma {:induction false} DisplacedFits(s: D.State, r: nat, n: nat)
    ensures Displaced(s, r, n) != Some(r)
  {
    if Displaced(s, r, n).Some? {
      var d, i := s.info[r].dir, s.info[r].(sector := s.info[r].sector - n, size := s.info[r].size + n);
      D.AliasIs(Without(At(s.tree, d), r), s.info[r := i], i.sector);
      WithoutMembers(At(s.tree, d), r);
    }
  }

  /** They are what merging asks of a scheduler: the candidate starts where the bio ends, the others are other
      requests. */
  lemma {:induction false} SuppliedFits(q: M.Queue, s: D.State, bio: M.Bio, c: M.Choices, r: nat)
    requires Agree(q, s) && D.Coherent(s) && Supplied(s, bio, c, r)
    ensures B.FrontCandidate(q, bio, c.front) && B.Others(q, c, r)
  {
    CandidateFits(q, s, bio);
    NeighboursFit(q, s, D.DirOf(s.info, r), r);
    DisplacedFits(s, r, bio.size);
  }

  // ---------------------------------------------------------------- every operation keeps the agreement

  /** The scheduler's FIFOs after a request has been moved to the dispatch queue. */
  lemma {:induction false} MoveAgrees(q: M.Queue, s: D.State, d: Dir, a: nat, q': M.Queue)
    requires Agree(q, s) && a in At(s.fifo, d) && a !in At(s.fifo, Other(d)) && q'.reqs == q.reqs
    requires q'.sched == q.sched - {a}
    ensures Agree(q', D.Move(s, d, a))
  {
    WithoutMembers(At(s.fifo, d), a);
  }

  /** elv_dispatch_add_tail for the request that deadline_dispatch_requests chooses. */
  lemma {:induction false} DispatchAgrees(q: M.Queue, s: D.State, t: D.Tunables, now: int)
    requires Agree(q, s) && D.Coherent(s) && D.Busy(s)
    ensures D.Choosable(s) && Agree(M.Dispatched(q, D.Choice(s, t, now).0), D.Dispatch(s, t, now))
  {
    D.ChoiceQueued(s, t, now);
    var (r, b) := D.Choice(s, t, now);
    var s1 := s.(batching := b + 1, starved := D.Starved(s, t));
    D.FifoDir(s, D.NONE, s.info[r].dir, r);
    assert Agree(q, s1);
    MoveAgrees(q, s1, s.info[r].dir, r, M.Dispatched(q, r));
  }

  /** A bio merged at the end of a request. */
  lemma {:induction false} AppendAgrees(q: M.Queue, s: D.State, r: nat, bio: M.Bio)
    requires Agree(q, s) && r in q.sched
    ensures Agree(M.Append(q, r, bio), D.BackMerge(s, r, bio.size))
  {
    assert Match(q.reqs, s.info, r);
  }

  /** The agreement when a request that meets an alias in the tree goes in, or in again: the alias is dispatched. */
  lemma {:induction false} TreeAgrees(q: M.Queue, s: D.State, out: Two<set<nat>>, d: Dir, r: nat)
    requires Agree(q, s) && D.Linked(s, out)
    ensures Agree(M.Evict(q, D.Alias(At(s.tree, d), s.info, D.SectorOf(s.info, r))), D.AddToTree(s, d, r))
  {
    var a := D.Alias(At(s.tree, d), s.info, D.SectorOf(s.info, r));
    D.AliasIs(At(s.tree, d), s.info, D.SectorOf(s.info, r));
    D.AddToTreeIs(s, out, d, r);
    if a.Some? {
      D.FifoDir(s, out, d, a.value);
      MoveAgrees(q, s, d, a.value, M.Dispatched(q, a.value));
    }
  }

  lemma {:induction false} ChangedAgree(q: M.Queue, s: D.State, q': M.Queue, s': D.State, r: nat, x: M.Req, y: D.Info)
    requires Agree(q, s) && q'.sched == q.sched && s'.fifo == s.fifo
    requires q'.reqs == q.reqs[r := x] && s'.info == s.info[r := y] && Match(q'.reqs, s'.info, r)
    ensures Agree(q', s')
  {
    forall z | z in q'.sched ensures Match(q'.reqs, s'.info, z) {
      if z != r { assert Match(q.reqs, s.info, z); }
    }
  }

  lemma {:induction false} BothQueued(q: M.Queue, s: D.State, r: nat, d: Dir)
    requires Agree(q, s) && D.Coherent(s) && r in q.sched && r in s.info && s.info[r].dir == d
    ensures r in At(s.fifo, d) && r !in At(s.fifo, Other(d)) && r in At(s.tree, d)
  {
    if r in At(s.fifo, Other(d)) { D.FifoDir(s, D.NONE, Other(d), r); }
  }

  /** A front merge takes the request out and puts it in again. */
  lemma {:induction false} FrontIs(s: D.State, r: nat, n: nat, d: Dir, i: D.Info)
    requires r in s.info && n <= s.info[r].sector && d == s.info[r].dir
    requires i == s.info[r].(sector := s.info[r].sector - n, size := s.info[r].size + n)
    ensures var s1 := D.TakenOut(s, d, r, i);
            && D.FrontMerge(s, r, n) == D.AddToTree(s1, d, r)
            && Displaced(s, r, n) == D.Alias(At(s1.tree, d), s1.info, D.SectorOf(s1.info, r))
  {
  }

  /** A bio merged at the front, with the request it displaces. */
  lemma {:induction false} PrependAgrees(q: M.Queue, s: D.State, r: nat, bio: M.Bio)
    requires Agree(q, s) && D.Coherent(s) && r in q.sched && bio.sector + bio.size == q.reqs[r].sector
    ensures Agree(M.Evict(M.Prepend(q, r, bio), Displaced(s, r, bio.size)), D.FrontMerge(s, r, bio.size))
  {
    assert Match(q.reqs, s.info, r);
    var d, n := s.info[r].dir, bio.size;
    var i := s.info[r].(sector := s.info[r].sector - n, size := s.info[r].size + n);
    BothQueued(q, s, r, d);
    var q1, s1 := M.Prepend(q, r, bio), D.TakenOut(s, d, r, i);
    assert Agree(q1, s1) by { ChangedAgree(q, s, q1, s1, r, q1.reqs[r], i); }
    assert D.Linked(s1, D.Only(d, r)) by { D.TakeOutKeeps(s, d, r, i); }
    FrontIs(s, r, n, d, i);
    TreeAgrees(q1, s1, D.Only(d, r), d, r);
  }

  lemma {:induction false} JoinedAgree(q: M.Queue, s: D.State, q': M.Queue, s': D.State, r: nat, n: nat, x: M.Req,
                                       y: D.Info)
    requires Agree(q, s) && q'.sched == q.sched - {n} && r != n
    requires q'.reqs == q.reqs[r := x] - {n} && s'.info == s.info[r := y] && Match(map[r := x], map[r := y], r)
    requires forall z ::
             (z in s'.fifo.read || z in s'.fifo.write) <==> (z in s.fifo.read || z in s.fifo.write) && z != n
    ensures Agree(q', s')
  {
    forall z | z in q'.sched ensures Match(q'.reqs, s'.info, z) {
      if z != r { assert Match(q.reqs, s.info, z); }
    }
  }

  lemma {:induction false} MergedFifos(s: D.State, d: Dir, r: nat, n: nat)
    requires D.Coherent(s) && r in At(s.fifo, d) && n in At(s.fifo, d) && r != n && n !in At(s.fifo, Other(d))
    requires r in s.info
    requires n in s.info && s.info[n].dir == d
    ensures var s' := D.MergeRequests(s, r, n);
            forall z :: (z in s'.fifo.read || z in s'.fifo.write) <==> (z in s.fifo.read || z in s.fifo.write) && z != n
  {
    D.MergedFifoIs(At(s.fifo, d), s.info, r, n);
  }

  /** Two queued requests merged into one. */
  lemma {:induction false} JoinAgrees(q: M.Queue, s: D.State, h: M.HashFn, r: nat, n: nat)
    requires Agree(q, s) && D.Coherent(s) && r in q.sched && n in q.sched && r != n
    requires q.reqs[r].write == q.reqs[n].write
    ensures Agree(M.Join(q, h, r, n), D.MergeRequests(s, r, n))
  {
    assert Match(q.reqs, s.info, r) && Match(q.reqs, s.info, n);
    var d := s.info[n].dir;
    assert r in At(s.fifo, d) by { BothQueued(q, s, r, d); }
    assert n in At(s.fifo, d) && n !in At(s.fifo, Other(d)) by { BothQueued(q, s, n, d); }
    MergedFifos(s, d, r, n);
    B.JoinReqs(q, h, r, n);
    var q', s' := M.Join(q, h, r, n), D.MergeRequests(s, r, n);
    JoinedAgree(q, s, q', s', r, n, M.Grown(q, r, n).reqs[r], s'.info[r]);
  }

  lemma {:induction false} InsertOnly(q: M.Queue, h: M.HashFn, r: nat, req: M.Req)
    ensures M.Insert(q, h, r, req).reqs == q.reqs[r := req] && M.Insert(q, h, r, req).sched == q.sched + {r}
  {
    B.HashOnly(q.(reqs := q.reqs[r := req], sched := q.sched + {r}), h, r);
  }

  lemma {:induction false} EvictOnly(q: M.Queue, a: Option<nat>)
    ensures M.Evict(q, a).reqs == q.reqs && M.Evict(q, a).sched == if a.Some? then q.sched - {a.value} else q.sched
  {
  }

  lemma {:induction false} InsertIs(q: M.Queue, h: M.HashFn, r: nat, req: M.Req, a: Option<nat>)
    requires a != Some(r)
    ensures var q', q1 := M.Evict(M.Insert(q, h, r, req), a), M.Evict(q.(reqs := q.reqs[r := req]), a);
            q'.reqs == q1.reqs && q'.sched == q1.sched + {r}
  {
    var qi, qr := M.Insert(q, h, r, req), q.(reqs := q.reqs[r := req]);
    InsertOnly(q, h, r, req);
    EvictOnly(qi, a);
    EvictOnly(qr, a);
  }

  lemma {:induction false} NotQueuedAgree(q: M.Queue, s: D.State, q': M.Queue, s': D.State, r: nat, x: M.Req, y: D.Info)
    requires Agree(q, s) && q'.sched == q.sched && s'.fifo == s.fifo && r !in s.info
    requires q'.reqs == q.reqs[r := x] && s'.info == s.info[r := y]
    ensures Agree(q', s')
  {
    forall z | z in q'.sched ensures Match(q'.reqs, s'.info, z) {
      assert Match(q.reqs, s.info, z);
    }
  }

  lemma {:induction false} TailAgrees(q: M.Queue, s: D.State, q': M.Queue, d: Dir, r: nat)
    requires Agree(q, s) && q'.reqs == q.reqs && q'.sched == q.sched + {r} && Match(q.reqs, s.info, r)
    ensures Agree(q', s.(fifo := With(s.fifo, d, At(s.fifo, d) + [r])))
  {
  }

  /** A new request: elv_insert hashes it, and the scheduler queues it and dispatches an alias. */
  lemma {:induction false} InsertAgrees(q: M.Queue, s: D.State, h: M.HashFn, r: nat, req: M.Req, i: D.Info)
    requires Agree(q, s) && D.Coherent(s) && r !in s.info && Match(map[r := req], map[r := i], r)
    ensures Agree(M.Evict(M.Insert(q, h, r, req), D.Alias(At(s.tree, i.dir), s.info[r := i], i.sector)), D.Add(s, r, i))
  {
    var s1, q1 := D.Registered(s, r, i), q.(reqs := q.reqs[r := req]);
    var a := D.Alias(At(s.tree, i.dir), s.info[r := i], i.sector);
    D.RegisterKeeps(s, r, i);
    D.AliasIs(At(s.tree, i.dir), s.info[r := i], i.sector);
    NotQueuedAgree(q, s, q1, s1, r, req, i);
    TreeAgrees(q1, s1, D.NONE, i.dir, r);
    D.AddToTreeIs(s1, D.NONE, i.dir, r);
    InsertIs(q, h, r, req, a);
    TailAgrees(M.Evict(q1, a), D.AddToTree(s1, i.dir, r), M.Evict(M.Insert(q, h, r, req), a), i.dir, r);
  }
}
