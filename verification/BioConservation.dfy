// No bio is lost or doubled by merging, and the bios of a request cover its sectors in order.
module BioConservation {
  import opened Lists
  import opened Merging
  import Runs

  // ---------------------------------------------------------------- a request and its bios

  /** Each bio starts where the one before ends. */
  ghost predicate Chained(bios: seq<Bio>) {
    forall i :: 0 < i < |bios| ==> bios[i].sector == bios[i - 1].sector + bios[i - 1].size
  }

  /** The bios cover [sector, sector + size) in order, without gap or overlap. */
  ghost predicate Tiles(r: Req) {
    && |r.bios| > 0 && Chained(r.bios) && r.bios[0].sector == r.sector
    && r.bios[|r.bios| - 1].sector + r.bios[|r.bios| - 1].size == End(r)
  }

  ghost predicate Uniform(r: Req) {
    forall i :: 0 <= i < |r.bios| ==> r.bios[i].write == r.write && r.bios[i].disk == r.disk
  }

  /** A request made by merging stays within the limit. */
  ghost predicate Within(r: Req, limit: nat) { |r.bios| > 1 ==> r.size <= limit }

  ghost predicate ReqOk(r: Req, limit: nat) { Tiles(r) && Uniform(r) && Within(r, limit) }

  function Ids(bios: seq<Bio>): (ids: seq<nat>)
    ensures |ids| == |bios| && forall i :: 0 <= i < |bios| ==> ids[i] == bios[i].id
  {
    seq(|bios|, i requires 0 <= i < |bios| => bios[i].id)
  }

  lemma {:induction false} AppendOk(r: Req, bio: Bio, limit: nat)
    requires ReqOk(r, limit) && bio.sector == End(r) && bio.write == r.write && bio.disk == r.disk
    requires r.size + bio.size <= limit
    ensures ReqOk(r.(bios := r.bios + [bio], size := r.size + bio.size), limit)
  {
  }

  lemma {:induction false} PrependOk(r: Req, bio: Bio, limit: nat)
    requires ReqOk(r, limit) && bio.sector + bio.size == r.sector && bio.write == r.write && bio.disk == r.disk
    requires r.size + bio.size <= limit
    ensures ReqOk(r.(bios := [bio] + r.bios, sector := bio.sector, size := r.size + bio.size), limit)
  {
    var bios := [bio] + r.bios;
    forall i | 0 < i < |bios| ensures bios[i].sector == bios[i - 1].sector + bios[i - 1].size {
      assert bios[i] == r.bios[i - 1];
      if i > 1 { assert bios[i - 1] == r.bios[i - 2]; }
    }
  }

  lemma {:induction false} JoinOk(r: Req, n: Req, limit: nat)
    requires ReqOk(r, limit) && ReqOk(n, limit) && End(r) == n.sector && r.write == n.write && r.disk == n.disk
    requires r.size + n.size <= limit
    ensures ReqOk(r.(bios := r.bios + n.bios, size := r.size + n.size), limit)
  {
    var bios := r.bios + n.bios;
    var k := |r.bios|;
    forall i | 0 < i < |bios| ensures bios[i].sector == bios[i - 1].sector + bios[i - 1].size {
      if i > k { assert bios[i] == n.bios[i - k] && bios[i - 1] == n.bios[i - k - 1]; }
      if i == k { assert bios[i] == n.bios[0] && bios[i - 1] == r.bios[k - 1]; }
    }
    assert bios[|bios| - 1] == n.bios[|n.bios| - 1];
  }

  // ---------------------------------------------------------------- where each bio is

  /** The queue, the request that holds each bio, the bios that still need a request, those finished, and all so far. */
  datatype World = World(q: Queue, home: map<nat, Rq>, waiting: map<nat, Bio>, done: set<nat>, used: set<nat>)

  ghost predicate Requests(reqs: map<Rq, Req>, limit: nat) {
    forall r :: r in reqs ==> ReqOk(reqs[r], limit)
  }

  /** Request r holds exactly the bios that are at home there, each once. */
  ghost predicate Holds(ids: seq<nat>, home: map<nat, Rq>, r: Rq) {
    NoDup(ids) && forall id :: id in ids <==> id in home && home[id] == r
  }

  ghost predicate Homes(reqs: map<Rq, Req>, home: map<nat, Rq>) {
    && (forall r :: r in reqs ==> Holds(Ids(reqs[r].bios), home, r))
    && (forall id :: id in home ==> home[id] in reqs)
  }

  /** Every submitted bio is in a request, waits for one or is finished. */
  ghost predicate Accounts(home: map<nat, Rq>, waiting: map<nat, Bio>, done: set<nat>, used: set<nat>) {
    && home.Keys !! waiting.Keys !! done && used == home.Keys + waiting.Keys + done
    && forall id :: id in waiting ==> waiting[id].id == id
  }

  ghost predicate Inv(w: World, h: HashFn, limit: nat) {
    HashOk(w.q, h) && Requests(w.q.reqs, limit) && Homes(w.q.reqs, w.home)
        && Accounts(w.home, w.waiting, w.done, w.used)
  }

  lemma {:induction false} IdsConcat(a: seq<Bio>, b: seq<Bio>)
    ensures Ids(a + b) == Ids(a) + Ids(b)
  {
  }

  lemma {:induction false} HoldsSnoc(ids: seq<nat>, home: map<nat, Rq>, r: Rq, id: nat)
    requires Holds(ids, home, r) && id !in home
    ensures Holds(ids + [id], home[id := r], r) && Holds([id] + ids, home[id := r], r)
  {
    SnocNoDup(ids, id);
    ConsNoDup(id, ids);
  }

  /** A new bio at home in r changes nothing for the others. */
  lemma {:induction false} HomesAdd(reqs: map<Rq, Req>, home: map<nat, Rq>, r: Rq, req: Req, id: nat)
    requires Homes(reqs, home) && id !in home && Holds(Ids(req.bios), home[id := r], r)
    ensures Homes(reqs[r := req], home[id := r])
  {
    forall x | x in reqs && x != r ensures Holds(Ids(reqs[x].bios), home[id := r], x) {
      assert Holds(Ids(reqs[x].bios), home, x);
      assert id !in Ids(reqs[x].bios);
    }
  }

  /** The homes when n has become part of r. */
  function Moved(home: map<nat, Rq>, r: Rq, n: Rq): map<nat, Rq> {
    map id | id in home :: if home[id] == n then r else home[id]
  }

  lemma {:induction false} NoDupConcat(a: seq<nat>, b: seq<nat>)
    requires NoDup(a) && NoDup(b) && forall x :: x in a ==> x !in b
    ensures NoDup(a + b)
  {
    forall i, j | 0 <= i < j < |a + b| ensures (a + b)[i] != (a + b)[j] {
      if i < |a| <= j { assert a[i] in a && b[j - |a|] in b; }
    }
  }

  lemma {:induction false} HoldsJoined(a: seq<nat>, b: seq<nat>, home: map<nat, Rq>, r: Rq, n: Rq)
    requires Holds(a, home, r) && Holds(b, home, n) && r != n
    ensures Holds(a + b, Moved(home, r, n), r)
  {
    NoDupConcat(a, b);
  }

  lemma {:induction false} HoldsElsewhere(ids: seq<nat>, home: map<nat, Rq>, r: Rq, n: Rq, x: Rq)
    requires Holds(ids, home, x) && x != r && x != n
    ensures Holds(ids, Moved(home, r, n), x)
  {
  }

  lemma {:induction false} HomesJoin(reqs: map<Rq, Req>, home: map<nat, Rq>, r: Rq, n: Rq, req: Req)
    requires Homes(reqs, home) && r in reqs && n in reqs && r != n && req.bios == reqs[r].bios + reqs[n].bios
    ensures Homes(reqs[r := req] - {n}, Moved(home, r, n))
  {
    var reqs', home' := reqs[r := req] - {n}, Moved(home, r, n);
    forall x | x in reqs' ensures Holds(Ids(reqs'[x].bios), home', x) {
      if x == r {
        IdsConcat(reqs[r].bios, reqs[n].bios);
        HoldsJoined(Ids(reqs[r].bios), Ids(reqs[n].bios), home, r, n);
      } else {
        HoldsElsewhere(Ids(reqs[x].bios), home, r, n, x);
      }
    }
  }

  // ---------------------------------------------------------------- what a submission does

  lemma {:induction false} ClosedOk(reqs: map<Rq, Req>, reqs': map<Rq, Req>, limit: nat, home: map<nat, Rq>)
    requires Requests(reqs, limit) && Homes(reqs, home) && reqs'.Keys == reqs.Keys
    requires forall x :: x in reqs ==> reqs'[x] == reqs[x] || reqs'[x] == reqs[x].(closed := true)
    ensures Requests(reqs', limit) && Homes(reqs', home)
  {
    forall x | x in reqs' ensures ReqOk(reqs'[x], limit) && Holds(Ids(reqs'[x].bios), home, x) {
      assert ReqOk(reqs[x], limit) && Holds(Ids(reqs[x].bios), home, x);
      assert Ids(reqs'[x].bios) == Ids(reqs[x].bios);
    }
  }

  lemma {:induction false} CloseOk(q: Queue, r: Rq, limit: nat, home: map<nat, Rq>)
    requires Requests(q.reqs, limit) && Homes(q.reqs, home)
    ensures Requests(Close(q, r).reqs, limit) && Homes(Close(q, r).reqs, home)
  {
    if r in q.reqs { ClosedOk(q.reqs, q.reqs[r := q.reqs[r].(closed := true)], limit, home); }
  }

  /** The bio fits r at its end, or at its front. */
  ghost predicate FitsBack(q: Queue, r: Rq, bio: Bio) {
    MergeOk(q, r, bio) && End(q.reqs[r]) == bio.sector && r in q.sched
  }

  ghost predicate FitsFront(q: Queue, r: Rq, bio: Bio) {
    MergeOk(q, r, bio) && q.reqs[r].sector == bio.sector + bio.size && r in q.sched
  }

  /** The scheduler's candidate starts where the bio ends. */
  ghost predicate FrontCandidate(q: Queue, bio: Bio, front: Option<Rq>) {
    front.Some? ==>
        front.value in q.sched && front.value in q.reqs && q.reqs[front.value].sector == bio.sector + bio.size
  }

  /** elv_merge only proposes merges that fit. */
  lemma {:induction false} ElvMergeFits(q: Queue, h: HashFn, bio: Bio, front: Option<Rq>)
    requires HashOk(q, h) && FrontCandidate(q, bio, front)
    ensures var (m, q1) := ElvMerge(q, h, bio, front);
            && HashOk(q1, h) && q1.reqs == q.reqs && q1.sched == q.sched
            && (m.BackMerge? ==> FitsBack(q1, m.r, bio)) && (m.FrontMerge? ==> FitsFront(q1, m.r, bio))
  {
    FindExact(q, h, bio.sector);
  }

  /** If a request could take the bio at its end, elv_merge proposes a merge. */
  lemma {:induction false} ElvMergeComplete(q: Queue, h: HashFn, bio: Bio, front: Option<Rq>)
    requires HashOk(q, h)
    requires exists r :: r in q.sched && Mergeable(q, r) && End(q.reqs[r]) == bio.sector
    requires forall r :: r in q.sched && Mergeable(q, r) && End(q.reqs[r]) == bio.sector ==>
               q.reqs[r].write == bio.write && q.reqs[r].disk == bio.disk && !q.reqs[r].special
    ensures ElvMerge(q, h, bio, front).0 != NoMerge
  {
    FindExact(q, h, bio.sector);
  }

  ghost predicate Content(q: Queue, home: map<nat, Rq>, limit: nat) { Requests(q.reqs, limit) && Homes(q.reqs, home) }

  lemma {:induction false} ReplaceContent(reqs: map<Rq, Req>, home: map<nat, Rq>, limit: nat, r: Rq, req: Req, id: nat)
    requires Requests(reqs, limit) && Homes(reqs, home) && ReqOk(req, limit) && id !in home
    requires Holds(Ids(req.bios), home[id := r], r)
    ensures Requests(reqs[r := req], limit) && Homes(reqs[r := req], home[id := r])
  {
    HomesAdd(reqs, home, r, req, id);
  }

  lemma {:induction false} SnocIds(bios: seq<Bio>, bio: Bio)
    ensures Ids(bios + [bio]) == Ids(bios) + [bio.id] && Ids([bio] + bios) == [bio.id] + Ids(bios)
  {
    IdsConcat(bios, [bio]);
    IdsConcat([bio], bios);
    assert Ids([bio]) == [bio.id];
  }

  lemma {:induction false} AppendReqs(reqs: map<Rq, Req>, home: map<nat, Rq>, limit: nat, r: Rq, was: Req, req: Req,
                                      bio: Bio)
    requires Requests(reqs, limit) && Homes(reqs, home) && r in reqs && was == reqs[r] && bio.id !in home
    requires ReqOk(req, limit)
    requires req.bios == was.bios + [bio] || req.bios == [bio] + was.bios
    ensures Requests(reqs[r := req], limit) && Homes(reqs[r := req], home[bio.id := r])
  {
    SnocIds(was.bios, bio);
    HoldsSnoc(Ids(was.bios), home, r, bio.id);
    ReplaceContent(reqs, home, limit, r, req, bio.id);
  }

  lemma {:induction false} AppendContent(q: Queue, home: map<nat, Rq>, limit: nat, r: Rq, bio: Bio)
    requires Content(q, home, limit) && FitsBack(q, r, bio) && q.reqs[r].size + bio.size <= limit && bio.id !in home
    ensures Content(Append(q, r, bio), home[bio.id := r], limit)
  {
    AppendOk(q.reqs[r], bio, limit);
    AppendReqs(q.reqs, home, limit, r, q.reqs[r], Append(q, r, bio).reqs[r], bio);
  }

  lemma {:induction false} PrependContent(q: Queue, home: map<nat, Rq>, limit: nat, r: Rq, bio: Bio)
    requires Content(q, home, limit) && FitsFront(q, r, bio) && q.reqs[r].size + bio.size <= limit && bio.id !in home
    ensures Content(Prepend(q, r, bio), home[bio.id := r], limit)
  {
    PrependOk(q.reqs[r], bio, limit);
    AppendReqs(q.reqs, home, limit, r, q.reqs[r], Prepend(q, r, bio).reqs[r], bio);
  }

  /** Only the hash changes. */
  lemma {:induction false} HashOnly(q: Queue, h: HashFn, r: Rq)
    ensures HashAdd(q, h, r).reqs == q.reqs && HashDel(q, r).reqs == q.reqs && Rehash(q, h, r).reqs == q.reqs
    ensures HashAdd(q, h, r).sched == q.sched && HashDel(q, r).sched == q.sched && Rehash(q, h, r).sched == q.sched
    ensures Dispatched(q, r).reqs == q.reqs
  {
  }

  lemma {:induction false} JoinReqs(q: Queue, h: HashFn, r: Rq, n: Rq)
    requires r in q.reqs && n in q.reqs
    ensures Join(q, h, r, n).reqs == Grown(q, r, n).reqs - {n} && Join(q, h, r, n).sched == q.sched - {n}
  {
    HashOnly(Grown(q, r, n), h, r);
    HashOnly(Rehash(Grown(q, r, n), h, r), h, n);
  }

  lemma {:induction false} RequestsJoin(reqs: map<Rq, Req>, limit: nat, r: Rq, n: Rq, req: Req)
    requires Requests(reqs, limit) && ReqOk(req, limit)
    ensures Requests(reqs[r := req] - {n}, limit)
  {
  }

  lemma {:induction false} JoinedContent(reqs: map<Rq, Req>, q: Queue, home: map<nat, Rq>, limit: nat, r: Rq, n: Rq,
                                         req: Req)
    requires Requests(reqs, limit) && Homes(reqs, home) && r in reqs && n in reqs && r != n
    requires ReqOk(req, limit) && req.bios == reqs[r].bios + reqs[n].bios && q.reqs == reqs[r := req] - {n}
    ensures Content(q, Moved(home, r, n), limit)
  {
    RequestsJoin(reqs, limit, r, n, req);
    HomesJoin(reqs, home, r, n, req);
  }

  lemma {:induction false} JoinReqOk(q: Queue, limit: nat, r: Rq, n: Rq, segsOk: bool)
    requires Requests(q.reqs, limit) && CanJoin(q, r, n, limit, segsOk)
    ensures var req := Grown(q, r, n).reqs[r];
            && ReqOk(req, limit) && req.bios == q.reqs[r].bios + q.reqs[n].bios
            && Grown(q, r, n).reqs == q.reqs[r := req]
  {
    JoinOk(q.reqs[r], q.reqs[n], limit);
  }

  lemma {:induction false} JoinContent(q: Queue, h: HashFn, home: map<nat, Rq>, limit: nat, r: Rq, n: Rq, segsOk: bool)
    requires Content(q, home, limit) && CanJoin(q, r, n, limit, segsOk) && r != n
    ensures Content(Join(q, h, r, n), Moved(home, r, n), limit)
  {
    var req := Grown(q, r, n).reqs[r];
    JoinReqOk(q, limit, r, n, segsOk);
    JoinReqs(q, h, r, n);
    JoinedContent(q.reqs, Join(q, h, r, n), home, limit, r, n, req);
  }

  /** The neighbour and the request moved out of the way are other scheduled requests. */
  ghost predicate Others(q: Queue, c: Choices, r: Rq) {
    (c.neighbour.Some? ==> c.neighbour.value in q.sched && c.neighbour.value != r) && c.out != Some(r)
  }

  /** Where the bios are after a back merge. */
  ghost function HomeBack(q: Queue, limit: nat, bio: Bio, c: Choices, r: Rq, home: map<nat, Rq>): map<nat, Rq> {
    if TooLarge(q, r, bio, limit) || !c.segsOk then home
    else if c.neighbour.Some? && CanJoin(Append(q, r, bio), r, c.neighbour.value, limit, c.joinOk) then
      Moved(home[bio.id := r], r, c.neighbour.value)
    else home[bio.id := r]
  }

  ghost function HomeFront(q: Queue, limit: nat, bio: Bio, c: Choices, r: Rq, home: map<nat, Rq>): map<nat, Rq> {
    if TooLarge(q, r, bio, limit) || !c.segsOk then home
    else if c.neighbour.Some? && CanJoin(Prepend(q, r, bio), c.neighbour.value, r, limit, c.joinOk) then
      Moved(home[bio.id := r], c.neighbour.value, r)
    else home[bio.id := r]
  }

  lemma {:induction false} BackContent(q: Queue, h: HashFn, limit: nat, bio: Bio, c: Choices, r: Rq, home: map<nat, Rq>)
    requires Content(q, home, limit) && FitsBack(q, r, bio) && Others(q, c, r) && bio.id !in home
    ensures var (merged, q') := SubmitBack(q, h, limit, bio, c, r);
            Content(q', HomeBack(q, limit, bio, c, r, home), limit)
  {
    if TooLarge(q, r, bio, limit) || !c.segsOk {
      CloseOk(q, r, limit, home);
    } else {
      AppendContent(q, home, limit, r, bio);
      var q1 := Append(q, r, bio);
      if c.neighbour.Some? && CanJoin(q1, r, c.neighbour.value, limit, c.joinOk) {
        JoinContent(q1, h, home[bio.id := r], limit, r, c.neighbour.value, c.joinOk);
      } else {
        HashOnly(q1, h, r);
      }
    }
  }

  lemma {:induction false} FrontContent(q: Queue, h: HashFn, limit: nat, bio: Bio, c: Choices, r: Rq,
                                        home: map<nat, Rq>)
    requires Content(q, home, limit) && FitsFront(q, r, bio) && Others(q, c, r) && bio.id !in home
    ensures var (merged, q') := SubmitFront(q, h, limit, bio, c, r);
            Content(q', HomeFront(q, limit, bio, c, r, home), limit)
  {
    if TooLarge(q, r, bio, limit) || !c.segsOk {
      CloseOk(q, r, limit, home);
    } else {
      PrependContent(q, home, limit, r, bio);
      var q1 := Prepend(q, r, bio);
      if c.neighbour.Some? && CanJoin(q1, c.neighbour.value, r, limit, c.joinOk) {
        JoinContent(q1, h, home[bio.id := r], limit, c.neighbour.value, r, c.joinOk);
      } else if c.out.Some? {
        HashOnly(q1, h, c.out.value);
      }
    }
  }

  lemma {:induction false} BackHash(q: Queue, h: HashFn, limit: nat, bio: Bio, c: Choices, r: Rq)
    requires HashOk(q, h) && FitsBack(q, r, bio) && Others(q, c, r)
    ensures HashOk(SubmitBack(q, h, limit, bio, c, r).1, h)
  {
    if TooLarge(q, r, bio, limit) || !c.segsOk {
      CloseKeeps(q, h, r);
    } else {
      var q1 := Append(q, r, bio);
      if c.neighbour.Some? && CanJoin(q1, r, c.neighbour.value, limit, c.joinOk) {
        JoinKeeps(q1, h, r, c.neighbour.value);
      } else {
        BackKeeps(q, h, r, bio);
      }
    }
  }

  lemma {:induction false} FrontHash(q: Queue, h: HashFn, limit: nat, bio: Bio, c: Choices, r: Rq)
    requires HashOk(q, h) && FitsFront(q, r, bio) && Others(q, c, r)
    ensures HashOk(SubmitFront(q, h, limit, bio, c, r).1, h)
  {
    if TooLarge(q, r, bio, limit) || !c.segsOk {
      CloseKeeps(q, h, r);
    } else {
      var q1 := Prepend(q, r, bio);
      PrependKeeps(q, h, r, bio);
      if c.neighbour.Some? && CanJoin(q1, c.neighbour.value, r, limit, c.joinOk) {
        JoinKeeps(q1, h, c.neighbour.value, r);
      } else {
        FrontKeeps(q1, h, r, c.out);
      }
    }
  }

  // ---------------------------------------------------------------- runs

  datatype Op =
    | SubmitOp(bio: Bio, c: Choices)
    | NewOp(id: nat, r: Rq)
    | DispatchOp(r: Rq)
    | FinishOp(r: Rq)

  /** A new bio, a new request, a scheduled request leaving the scheduler, a dispatched request ending. */
  ghost predicate Enabled(w: World, h: HashFn, op: Op)
    requires HashOk(w.q, h)
  {
    match op
    case SubmitOp(bio, c) =>
      bio.id !in w.used && FrontCandidate(w.q, bio, c.front)
      && var m := ElvMerge(w.q, h, bio, c.front).0; m != NoMerge ==> Others(w.q, c, m.r)
    case NewOp(id, r) => id in w.waiting && r !in w.q.reqs
    case DispatchOp(r) => r in w.q.sched
    case FinishOp(r) => r in w.q.reqs && r !in w.q.sched
  }

  ghost function HomeAfter(q: Queue, limit: nat, bio: Bio, c: Choices, m: Merge, home: map<nat, Rq>): map<nat, Rq> {
    match m
    case BackMerge(r) => HomeBack(q, limit, bio, c, r, home)
    case FrontMerge(r) => HomeFront(q, limit, bio, c, r, home)
    case NoMerge => home
  }

  ghost function Submitted(w: World, h: HashFn, limit: nat, bio: Bio, c: Choices): World
    requires HashOk(w.q, h)
  {
    var (m, q1) := ElvMerge(w.q, h, bio, c.front);
    var (merged, q') := Submit(w.q, h, limit, bio, c);
    World(q', HomeAfter(q1, limit, bio, c, m, w.home), if merged then w.waiting else w.waiting[bio.id := bio], w.done,
        w.used + {bio.id})
  }

  ghost function Finished(w: World, r: Rq): World {
    w.(q := w.q.(reqs := w.q.reqs - {r}), home := map id | id in w.home && w.home[id] != r :: w.home[id],
       done := w.done + set id | id in w.home && w.home[id] == r)
  }

  ghost function Step(w: World, h: HashFn, limit: nat, op: Op): World
    requires HashOk(w.q, h) && Enabled(w, h, op)
  {
    match op
    case SubmitOp(bio, c) => Submitted(w, h, limit, bio, c)
    case NewOp(id, r) => w.(q := New(w.q, h, w.waiting[id], r), home := w.home[id := r], waiting := w.waiting - {id})
    case DispatchOp(r) => w.(q := Dispatched(w.q, r))
    case FinishOp(r) => Finished(w, r)
  }

  lemma {:induction false} MovedKeys(home: map<nat, Rq>, r: Rq, n: Rq)
    ensures Moved(home, r, n).Keys == home.Keys
  {
  }

  function KeysAfter(home: map<nat, Rq>, bio: Bio, merged: bool): set<nat> {
    if merged then home.Keys + {bio.id} else home.Keys
  }

  /** The bio is at home somewhere exactly when it was merged. */
  lemma {:induction false} HomeKeys(q: Queue, h: HashFn, limit: nat, bio: Bio, c: Choices, m: Merge, home: map<nat, Rq>)
    ensures m.BackMerge? ==>
            HomeAfter(q, limit, bio, c, m, home).Keys == KeysAfter(home, bio, SubmitBack(q, h, limit, bio, c, m.r).0)
    ensures m.FrontMerge? ==>
            HomeAfter(q, limit, bio, c, m, home).Keys == KeysAfter(home, bio, SubmitFront(q, h, limit, bio, c, m.r).0)
  {
    if m != NoMerge {
      assert home[bio.id := m.r].Keys == home.Keys + {bio.id};
      if c.neighbour.Some? {
        MovedKeys(home[bio.id := m.r], m.r, c.neighbour.value);
        MovedKeys(home[bio.id := m.r], c.neighbour.value, m.r);
      }
    }
  }

  lemma {:induction false} SubmitContent(w: World, h: HashFn, limit: nat, bio: Bio, c: Choices)
    requires Inv(w, h, limit) && Enabled(w, h, SubmitOp(bio, c))
    ensures var w' := Submitted(w, h, limit, bio, c); HashOk(w'.q, h) && Content(w'.q, w'.home, limit)
  {
    var (m, q1) := ElvMerge(w.q, h, bio, c.front);
    ElvMergeFits(w.q, h, bio, c.front);
    assert Content(q1, w.home, limit);
    match m
    case BackMerge(r) =>
      BackHash(q1, h, limit, bio, c, r);
      BackContent(q1, h, limit, bio, c, r, w.home);
    case FrontMerge(r) =>
      FrontHash(q1, h, limit, bio, c, r);
      FrontContent(q1, h, limit, bio, c, r, w.home);
    case NoMerge =>
  }

  lemma {:induction false} SubmitAccounts(w: World, h: HashFn, limit: nat, bio: Bio, c: Choices)
    requires HashOk(w.q, h) && Accounts(w.home, w.waiting, w.done, w.used) && bio.id !in w.used
    ensures var w' := Submitted(w, h, limit, bio, c); Accounts(w'.home, w'.waiting, w'.done, w'.used)
  {
    var (m, q1) := ElvMerge(w.q, h, bio, c.front);
    HomeKeys(q1, h, limit, bio, c, m, w.home);
    assert w.waiting[bio.id := bio].Keys == w.waiting.Keys + {bio.id};
  }

  lemma {:induction false} InsertReqs(q: Queue, h: HashFn, r: Rq, req: Req)
    ensures Insert(q, h, r, req).reqs == q.reqs[r := req]
  {
    HashOnly(q.(reqs := q.reqs[r := req], sched := q.sched + {r}), h, r);
  }

  lemma {:induction false} NewHolds(reqs: map<Rq, Req>, home: map<nat, Rq>, r: Rq, bio: Bio)
    requires Homes(reqs, home) && r !in reqs && bio.id !in home
    ensures Holds(Ids(NewReq(bio).bios), home[bio.id := r], r)
  {
    assert Ids(NewReq(bio).bios) == [bio.id];
  }

  lemma {:induction false} NewContent(q: Queue, h: HashFn, limit: nat, home: map<nat, Rq>, bio: Bio, r: Rq)
    requires Content(q, home, limit) && r !in q.reqs && bio.id !in home
    ensures Content(New(q, h, bio, r), home[bio.id := r], limit)
  {
    NewHolds(q.reqs, home, r, bio);
    ReplaceContent(q.reqs, home, limit, r, NewReq(bio), bio.id);
    InsertReqs(q, h, r, NewReq(bio));
  }

  lemma {:induction false} NewAccounts(home: map<nat, Rq>, waiting: map<nat, Bio>, done: set<nat>, used: set<nat>,
                                       id: nat, r: Rq)
    requires Accounts(home, waiting, done, used) && id in waiting
    ensures Accounts(home[id := r], waiting - {id}, done, used)
  {
    assert home[id := r].Keys == home.Keys + {id};
  }

  lemma {:induction false} NewKeeps(w: World, h: HashFn, limit: nat, id: nat, r: Rq)
    requires Inv(w, h, limit) && Enabled(w, h, NewOp(id, r))
    ensures Inv(Step(w, h, limit, NewOp(id, r)), h, limit)
  {
    InsertKeeps(w.q, h, r, NewReq(w.waiting[id]));
    NewContent(w.q, h, limit, w.home, w.waiting[id], r);
    NewAccounts(w.home, w.waiting, w.done, w.used, id, r);
  }

  lemma {:induction false} FinishHash(q: Queue, h: HashFn, r: Rq)
    requires HashOk(q, h) && r !in q.sched
    ensures HashOk(q.(reqs := q.reqs - {r}), h)
  {
  }

  lemma {:induction false} FinishHomes(reqs: map<Rq, Req>, home: map<nat, Rq>, home': map<nat, Rq>, r: Rq)
    requires Homes(reqs, home) && home' == map id | id in home && home[id] != r :: home[id]
    ensures Homes(reqs - {r}, home')
  {
    forall x | x in reqs && x != r ensures Holds(Ids(reqs[x].bios), home', x) {
      assert Holds(Ids(reqs[x].bios), home, x);
    }
  }

  lemma {:induction false} FinishAccounts(home: map<nat, Rq>, waiting: map<nat, Bio>, done: set<nat>, used: set<nat>,
                                          r: Rq)
    requires Accounts(home, waiting, done, used)
    ensures Accounts(map id | id in home && home[id] != r :: home[id], waiting,
                     done + (set id | id in home && home[id] == r), used)
  {
    var home' := map id | id in home && home[id] != r :: home[id];
    var ended := set id | id in home && home[id] == r;
    assert home.Keys == home'.Keys + ended;
  }

  lemma {:induction false} FinishKeeps(w: World, h: HashFn, limit: nat, r: Rq)
    requires Inv(w, h, limit) && Enabled(w, h, FinishOp(r))
    ensures Inv(Finished(w, r), h, limit)
  {
    var w' := Finished(w, r);
    FinishHash(w.q, h, r);
    FinishHomes(w.q.reqs, w.home, w'.home, r);
    FinishAccounts(w.home, w.waiting, w.done, w.used, r);
  }

  /** Every operation keeps the hash in order, the requests tiled and within the limit, and all bios accounted for. */
  lemma {:induction false} StepKeeps(w: World, h: HashFn, limit: nat, op: Op)
    requires Inv(w, h, limit) && Enabled(w, h, op)
    ensures Inv(Step(w, h, limit, op), h, limit)
  {
    match op
    case SubmitOp(bio, c) =>
      SubmitContent(w, h, limit, bio, c);
      SubmitAccounts(w, h, limit, bio, c);
    case NewOp(id, r) => NewKeeps(w, h, limit, id, r);
    case DispatchOp(r) =>
      DispatchedKeeps(w.q, h, r);
      HashOnly(w.q, h, r);
    case FinishOp(r) => FinishKeeps(w, h, limit, r);
  }

  /** A bio at home in a request is in it once, and in no other request. */
  lemma {:induction false} ExactlyOnce(w: World, h: HashFn, limit: nat, id: nat) returns (i: nat)
    requires Inv(w, h, limit) && id in w.home
    ensures w.home[id] in w.q.reqs && i < |w.q.reqs[w.home[id]].bios| && w.q.reqs[w.home[id]].bios[i].id == id
    ensures forall r, j ::
            r in w.q.reqs && 0 <= j < |w.q.reqs[r].bios| && w.q.reqs[r].bios[j].id == id ==> r == w.home[id] && j == i
  {
    var r := w.home[id];
    var ids := Ids(w.q.reqs[r].bios);
    assert Holds(ids, w.home, r);
    i :| 0 <= i < |ids| && ids[i] == id;
    forall r', j | r' in w.q.reqs && 0 <= j < |w.q.reqs[r'].bios| && w.q.reqs[r'].bios[j].id == id
      ensures r' == r && j == i
    {
      assert Holds(Ids(w.q.reqs[r'].bios), w.home, r');
      assert Ids(w.q.reqs[r'].bios)[j] == id;
    }
  }

  /** One operation; one that cannot happen changes nothing. */
  ghost function Next(w: World, h: HashFn, limit: nat, op: Op): World {
    if HashOk(w.q, h) && Enabled(w, h, op) then Step(w, h, limit, op) else w
  }

  lemma {:induction false} NextKeeps(w: World, h: HashFn, limit: nat, op: Op)
    requires Inv(w, h, limit)
    ensures Inv(Next(w, h, limit, op), h, limit)
  {
    if Enabled(w, h, op) { StepKeeps(w, h, limit, op); }
  }

  /** Over every run: the hash is exact, every request is tiled and within the limit, and every bio is accounted for. */
  lemma {:induction false} AlwaysKept(w: World, h: HashFn, limit: nat, ops: seq<Op>, n: nat)
    requires Inv(w, h, limit) && n <= |ops|
    ensures Inv(Runs.After((v, op) => Next(v, h, limit, op), w, ops, n), h, limit)
  {
    var step := (v, op) => Next(v, h, limit, op);
    var holds := (v: World) => Inv(v, h, limit);
    forall v, op ensures holds(v) ==> holds(step(v, op)) {
      if holds(v) { NextKeeps(v, h, limit, op); }
    }
    Runs.Invariant(step, holds, w, ops, n);
  }

  lemma {:induction false} StartsKept(h: HashFn, limit: nat, buckets: nat)
    requires buckets > 0 && forall x :: h(x) < buckets
    ensures Inv(World(Queue(map[], {}, seq(buckets, _ => []), map[], None), map[], map[], {}, {}), h, limit)
  {
  }
}
