// Merging bios into requests: the merge hash and the one-hit cache of elevator.c, and __make_request of ll_rw_blk.c.
module Merging {
  import opened Lists

  type Rq = nat

  /** A bio: what it covers, and what has to agree for a merge. */
  datatype Bio = Bio(id: nat, write: bool, disk: nat, sector: nat, size: nat)

  /** A file system request; `closed` stands for any flag that rules merging out. */
  datatype Req = Req(bios: seq<Bio>, sector: nat, size: nat, write: bool, disk: nat, special: bool, closed: bool)

  /** The bucket of a sector; any function will do. */
  type HashFn = nat -> nat

  datatype Queue = Queue(
    reqs: map<Rq, Req>,           // the requests that exist
    sched: set<Rq>,               // those the scheduler holds
    hash: seq<seq<Rq>>,           // the buckets
    slot: map<Rq, nat>,           // the bucket a request is linked into, if any
    last: Option<Rq>)             // last_merge

  function End(r: Req): nat { r.sector + r.size }

  predicate Mergeable(q: Queue, r: Rq) { r in q.reqs && !q.reqs[r].closed }

  // ---------------------------------------------------------------- the hash

  /** elv_rqhash_add */
  function HashAdd(q: Queue, h: HashFn, r: Rq): Queue {
    if r !in q.reqs || h(End(q.reqs[r])) >= |q.hash| then q
    else
      var b := h(End(q.reqs[r]));
      q.(hash := q.hash[b := [r] + q.hash[b]], slot := q.slot[r := b])
  }

  /** elv_rqhash_del */
  function HashDel(q: Queue, r: Rq): Queue {
    if r !in q.slot || q.slot[r] >= |q.hash| then q
    else q.(hash := q.hash[q.slot[r] := Without(q.hash[q.slot[r]], r)], slot := q.slot - {r})
  }

  /** elv_rqhash_reposition */
  function Rehash(q: Queue, h: HashFn, r: Rq): Queue { HashAdd(HashDel(q, r), h, r) }

  /** The walk of elv_rqhash_find over a bucket: what it returns, and the entries it leaves linked. */
  function Scan(list: seq<Rq>, reqs: map<Rq, Req>, offset: nat): (Option<Rq>, seq<Rq>) {
    if |list| == 0 then (None, [])
    else if list[0] !in reqs || reqs[list[0]].closed then Scan(list[1..], reqs, offset)
    else if End(reqs[list[0]]) == offset then (Some(list[0]), list)
    else
      var (found, rest) := Scan(list[1..], reqs, offset);
      (found, [list[0]] + rest)
  }

  /** elv_rqhash_find: the request found, and the queue without the entries it dropped. */
  function Find(q: Queue, h: HashFn, offset: nat): (Option<Rq>, Queue)
    requires h(offset) < |q.hash|
  {
    var b := h(offset);
    var (found, rest) := Scan(q.hash[b], q.reqs, offset);
    (found, q.(hash := q.hash[b := rest], slot := map r | r in q.slot && (q.slot[r] != b || r in rest) :: q.slot[r]))
  }

  // ---------------------------------------------------------------- requests come, merge and go

  /** elv_insert with ELEVATOR_INSERT_SORT. */
  function Insert(q: Queue, h: HashFn, r: Rq, req: Req): Queue {
    var q1 := q.(reqs := q.reqs[r := req], sched := q.sched + {r});
    if req.closed then q1
    else
      var q2 := HashAdd(q1, h, r);
      q2.(last := if q.last.None? then Some(r) else q.last)
  }

  function Forget(q: Queue, r: Rq): Queue { if q.last == Some(r) then q.(last := None) else q }

  /** elv_dispatch_add_tail and elv_dispatch_sort, as far as merging goes. */
  function Dispatched(q: Queue, r: Rq): Queue {
    var q1 := HashDel(Forget(q, r), r);
    q1.(sched := q1.sched - {r})
  }

  /** A merge that would not fit closes the request. */
  function Close(q: Queue, r: Rq): Queue {
    if r !in q.reqs then q else Forget(q.(reqs := q.reqs[r := q.reqs[r].(closed := true)]), r)
  }

  /** The bio at the end of the request. */
  function Append(q: Queue, r: Rq, bio: Bio): Queue {
    if r !in q.reqs then q
    else q.(reqs := q.reqs[r := q.reqs[r].(bios := q.reqs[r].bios + [bio], size := q.reqs[r].size + bio.size)])
  }

  /** The bio at the front of the request. */
  function Prepend(q: Queue, r: Rq, bio: Bio): Queue {
    if r !in q.reqs then q
    else
      var req := q.reqs[r].(bios := [bio] + q.reqs[r].bios, sector := bio.sector, size := q.reqs[r].size + bio.size);
      q.(reqs := q.reqs[r := req])
  }

  /** elv_merged_request after a back merge. */
  function MergedBack(q: Queue, h: HashFn, r: Rq): Queue { Rehash(q, h, r).(last := Some(r)) }

  /** The request the scheduler moves out of the way of a front merge, if any. */
  function Evict(q: Queue, out: Option<Rq>): Queue { if out.Some? then Dispatched(q, out.value) else q }

  /** elv_merged_request after a front merge: the end sector is the same, so the hash is left alone. */
  function MergedFront(q: Queue, r: Rq, out: Option<Rq>): Queue { Evict(q, out).(last := Some(r)) }

  /** The checks of attempt_merge; segsOk is what the segment limits say. */
  predicate CanJoin(q: Queue, r: Rq, n: Rq, limit: nat, segsOk: bool) {
    && Mergeable(q, r) && Mergeable(q, n)
    && End(q.reqs[r]) == q.reqs[n].sector
    && q.reqs[r].write == q.reqs[n].write && q.reqs[r].disk == q.reqs[n].disk
    && !q.reqs[n].special && !q.reqs[r].special
    && q.reqs[r].size + q.reqs[n].size <= limit && segsOk
  }

  /** r with the bios of n added. */
  function Grown(q: Queue, r: Rq, n: Rq): Queue
    requires r in q.reqs && n in q.reqs
  {
    var req := q.reqs[r].(bios := q.reqs[r].bios + q.reqs[n].bios, size := q.reqs[r].size + q.reqs[n].size);
    q.(reqs := q.reqs[r := req])
  }

  /** n is gone, and r is the request merged last. */
  function Dropped(q: Queue, r: Rq, n: Rq): Queue {
    var q1 := HashDel(q, n);
    q1.(reqs := q1.reqs - {n}, sched := q1.sched - {n}, last := Some(r))
  }

  /** The rest of attempt_merge, and elv_merge_requests: n becomes part of r. */
  function Join(q: Queue, h: HashFn, r: Rq, n: Rq): Queue {
    if r !in q.reqs || n !in q.reqs then q else Dropped(Rehash(Grown(q, r, n), h, r), r, n)
  }

  // ---------------------------------------------------------------- elv_merge

  datatype Merge = NoMerge | BackMerge(r: Rq) | FrontMerge(r: Rq)

  /** elv_rq_merge_ok */
  predicate MergeOk(q: Queue, r: Rq, bio: Bio) {
    Mergeable(q, r) && bio.write == q.reqs[r].write && q.reqs[r].disk == bio.disk && !q.reqs[r].special
  }

  /** elv_try_merge */
  function TryMerge(q: Queue, r: Rq, bio: Bio): Merge {
    if !MergeOk(q, r, bio) then NoMerge
    else if End(q.reqs[r]) == bio.sector then BackMerge(r)
    else if q.reqs[r].sector == bio.sector + bio.size then FrontMerge(r)
    else NoMerge
  }

  /** elv_merge; `front` is the request the scheduler has starting where the bio ends. */
  function ElvMerge(q: Queue, h: HashFn, bio: Bio, front: Option<Rq>): (Merge, Queue)
    requires h(bio.sector) < |q.hash|
  {
    var cached := if q.last.Some? then TryMerge(q, q.last.value, bio) else NoMerge;
    if cached != NoMerge then (cached, q)
    else
      var (found, q1) := Find(q, h, bio.sector);
      if found.Some? && MergeOk(q1, found.value, bio) then (BackMerge(found.value), q1)
      else if front.Some? && MergeOk(q1, front.value, bio) then (FrontMerge(front.value), q1)
      else (NoMerge, q1)
  }

  // ---------------------------------------------------------------- __make_request

  /** What the environment decides in one call. */
  datatype Choices = Choices(
    front: Option<Rq>,            // the scheduler's candidate for a front merge
    segsOk: bool,                 // the segment limits allow the merge with the bio
    neighbour: Option<Rq>,        // elv_latter_request or elv_former_request
    joinOk: bool,                 // the segment limits allow merging with the neighbour
    out: Option<Rq>)              // a request the scheduler moves out of the way

  predicate TooLarge(q: Queue, r: Rq, bio: Bio, limit: nat) { r in q.reqs && q.reqs[r].size + bio.size > limit }

  function SubmitBack(q: Queue, h: HashFn, limit: nat, bio: Bio, c: Choices, r: Rq): (bool, Queue) {
    if TooLarge(q, r, bio, limit) || !c.segsOk then (false, Close(q, r))
    else
      var q1 := Append(q, r, bio);
      if c.neighbour.Some? && CanJoin(q1, r, c.neighbour.value, limit, c.joinOk) then
        (true, Join(q1, h, r, c.neighbour.value))
      else (true, MergedBack(q1, h, r))
  }

  function SubmitFront(q: Queue, h: HashFn, limit: nat, bio: Bio, c: Choices, r: Rq): (bool, Queue) {
    if TooLarge(q, r, bio, limit) || !c.segsOk then (false, Close(q, r))
    else
      var q1 := Prepend(q, r, bio);
      if c.neighbour.Some? && CanJoin(q1, c.neighbour.value, r, limit, c.joinOk) then
        (true, Join(q1, h, c.neighbour.value, r))
      else (true, MergedFront(q1, r, c.out))
  }

  /** The first part of __make_request, under the queue lock: whether the bio was merged, and the queue then. */
  function Submit(q: Queue, h: HashFn, limit: nat, bio: Bio, c: Choices): (bool, Queue)
    requires h(bio.sector) < |q.hash|
  {
    var (m, q1) := ElvMerge(q, h, bio, c.front);
    match m
    case BackMerge(r) => SubmitBack(q1, h, limit, bio, c, r)
    case FrontMerge(r) => SubmitFront(q1, h, limit, bio, c, r)
    case NoMerge => (false, q1)
  }

  function NewReq(bio: Bio): Req { Req([bio], bio.sector, bio.size, bio.write, bio.disk, false, false) }

  /** The second part, for a bio that was not merged: a request of its own. */
  function New(q: Queue, h: HashFn, bio: Bio, r: Rq): Queue { Insert(q, h, r, NewReq(bio)) }

  // ---------------------------------------------------------------- the hash agrees with the requests

  /** A request is in the bucket it is linked into, once, and in no other. */
  ghost predicate Linked(hash: seq<seq<Rq>>, slot: map<Rq, nat>) {
    && (forall b :: 0 <= b < |hash| ==> NoDup(hash[b]))
    && (forall b, r :: 0 <= b < |hash| ==> (r in hash[b] <==> r in slot && slot[r] == b))
    && (forall r :: r in slot ==> slot[r] < |hash|)
  }

  /** Linked requests are scheduled and in the bucket of their end sector. */
  ghost predicate Keyed(q: Queue, h: HashFn) {
    forall r :: r in q.slot ==> r in q.sched && r in q.reqs && q.slot[r] == h(End(q.reqs[r]))
  }

  /** Every scheduled request that may be merged is linked. */
  ghost predicate Complete(q: Queue) {
    forall r :: r in q.sched ==> r in q.reqs && (q.reqs[r].closed || r in q.slot)
  }

  ghost predicate Cached(q: Queue) { q.last.Some? ==> q.last.value in q.sched }

  ghost predicate HashOk(q: Queue, h: HashFn) {
    Linked(q.hash, q.slot) && Keyed(q, h) && Complete(q) && Cached(q) && |q.hash| > 0 && forall x :: h(x) < |q.hash|
  }

  /** elv_rqhash_find finds a request exactly when a mergeable scheduled request ends at the offset. */
  lemma {:induction false} ScanIs(list: seq<Rq>, reqs: map<Rq, Req>, offset: nat)
    ensures var (found, rest) := Scan(list, reqs, offset);
            && (found.Some? ==>
                  found.value in list && found.value in reqs && !reqs[found.value].closed
                  && End(reqs[found.value]) == offset)
            && (found.None? ==> forall r :: r in list && r in reqs && !reqs[r].closed ==> End(reqs[r]) != offset)
            && (forall r :: r in rest ==> r in list)
            && (forall r :: r in list && r in reqs && !reqs[r].closed ==> r in rest)
  {
    if |list| > 0 {
      ScanIs(list[1..], reqs, offset);
      assert forall r :: r in list <==> r == list[0] || r in list[1..];
    }
  }

  lemma {:induction false} ScanNoDup(list: seq<Rq>, reqs: map<Rq, Req>, offset: nat)
    requires NoDup(list)
    ensures NoDup(Scan(list, reqs, offset).1)
  {
    if |list| > 0 {
      ScanNoDup(list[1..], reqs, offset);
      ScanIs(list[1..], reqs, offset);
      assert list[0] !in list[1..];
      ConsNoDup(list[0], Scan(list[1..], reqs, offset).1);
    }
  }

  /** The lookup is exact, and dropping closed entries on the way keeps the hash in order. */
  lemma {:induction false} FindExact(q: Queue, h: HashFn, offset: nat)
    requires HashOk(q, h)
    ensures var (found, q1) := Find(q, h, offset);
            && HashOk(q1, h) && q1.reqs == q.reqs && q1.sched == q.sched && q1.last == q.last
            && (found.Some? ==>
                  found.value in q.sched && Mergeable(q, found.value) && End(q.reqs[found.value]) == offset)
            && (found.None? ==> forall r :: r in q.sched && Mergeable(q, r) ==> End(q.reqs[r]) != offset)
  {
    var b := h(offset);
    var (found, q1) := Find(q, h, offset);
    var rest := Scan(q.hash[b], q.reqs, offset).1;
    ScanIs(q.hash[b], q.reqs, offset);
    ScanNoDup(q.hash[b], q.reqs, offset);
    assert Linked(q1.hash, q1.slot) by {
      forall c, r | 0 <= c < |q1.hash| ensures r in q1.hash[c] <==> r in q1.slot && q1.slot[r] == c {
        assert r in q.hash[c] <==> r in q.slot && q.slot[r] == c;
      }
    }
    if found.None? {
      forall r | r in q.sched && Mergeable(q, r) ensures End(q.reqs[r]) != offset {
        assert r in q.hash[q.slot[r]];
      }
    }
  }

  // ---------------------------------------------------------------- what keeps the hash in order

  lemma {:induction false} AddLinked(hash: seq<seq<Rq>>, slot: map<Rq, nat>, b: nat, r: Rq)
    requires Linked(hash, slot) && r !in slot && b < |hash|
    ensures Linked(hash[b := [r] + hash[b]], slot[r := b])
  {
    var hash' := hash[b := [r] + hash[b]];
    assert r !in hash[b];
    ConsNoDup(r, hash[b]);
    forall c, x | 0 <= c < |hash'| ensures x in hash'[c] <==> x in slot[r := b] && slot[r := b][x] == c {
      assert x in hash[c] <==> x in slot && slot[x] == c;
    }
  }

  lemma {:induction false} DelLinked(hash: seq<seq<Rq>>, slot: map<Rq, nat>, r: Rq)
    requires Linked(hash, slot) && r in slot
    ensures Linked(hash[slot[r] := Without(hash[slot[r]], r)], slot - {r})
  {
    var b := slot[r];
    var hash' := hash[b := Without(hash[b], r)];
    WithoutNoDup(hash[b], r);
    WithoutMembers(hash[b], r);
    forall c, x | 0 <= c < |hash'| ensures x in hash'[c] <==> x in slot - {r} && (slot - {r})[x] == c {
      assert x in hash[c] <==> x in slot && slot[x] == c;
    }
  }

  /** All but x are where they belong. */
  ghost predicate KeyedBut(q: Queue, h: HashFn, x: Rq) {
    forall r :: r in q.slot && r != x ==> r in q.sched && r in q.reqs && q.slot[r] == h(End(q.reqs[r]))
  }

  ghost predicate Total(q: Queue, h: HashFn) { |q.hash| > 0 && forall x :: h(x) < |q.hash| }

  lemma {:induction false} DelKeeps(q: Queue, h: HashFn, r: Rq)
    requires Linked(q.hash, q.slot) && KeyedBut(q, h, r)
    ensures var q' := HashDel(q, r);
            Linked(q'.hash, q'.slot) && Keyed(q', h) && r !in q'.slot && q'.slot == q.slot - {r}
    ensures |HashDel(q, r).hash| == |q.hash|
  {
    if r in q.slot { DelLinked(q.hash, q.slot, r); }
  }

  lemma {:induction false} AddKeeps(q: Queue, h: HashFn, r: Rq)
    requires Linked(q.hash, q.slot) && Keyed(q, h) && Total(q, h) && r !in q.slot && r in q.reqs && r in q.sched
    ensures var q' := HashAdd(q, h, r);
            Linked(q'.hash, q'.slot) && Keyed(q', h) && q'.slot == q.slot[r := h(End(q.reqs[r]))]
    ensures |HashAdd(q, h, r).hash| == |q.hash|
  {
    AddLinked(q.hash, q.slot, h(End(q.reqs[r])), r);
  }

  /** Re-hashing puts a request whose end has moved where it belongs. */
  lemma {:induction false} RehashKeeps(q: Queue, h: HashFn, r: Rq)
    requires Linked(q.hash, q.slot) && KeyedBut(q, h, r) && Complete(q) && Total(q, h) && r in q.sched
    ensures HashOk(Rehash(q, h, r).(last := Some(r)), h) && Rehash(q, h, r).reqs == q.reqs
    ensures Rehash(q, h, r).sched == q.sched
  {
    DelKeeps(q, h, r);
    AddKeeps(HashDel(q, r), h, r);
  }

  lemma {:induction false} InsertKeeps(q: Queue, h: HashFn, r: Rq, req: Req)
    requires HashOk(q, h) && r !in q.reqs
    ensures HashOk(Insert(q, h, r, req), h)
  {
    var q1 := q.(reqs := q.reqs[r := req], sched := q.sched + {r});
    assert r !in q.slot;
    assert Keyed(q1, h);
    if !req.closed { AddKeeps(q1, h, r); }
  }

  lemma {:induction false} DispatchedKeeps(q: Queue, h: HashFn, r: Rq)
    requires HashOk(q, h)
    ensures HashOk(Dispatched(q, r), h) && r !in Dispatched(q, r).slot
  {
    DelKeeps(Forget(q, r), h, r);
  }

  lemma {:induction false} CloseKeeps(q: Queue, h: HashFn, r: Rq)
    requires HashOk(q, h)
    ensures HashOk(Close(q, r), h)
  {
  }

  lemma {:induction false} BackKeeps(q: Queue, h: HashFn, r: Rq, bio: Bio)
    requires HashOk(q, h) && r in q.sched
    ensures HashOk(MergedBack(Append(q, r, bio), h, r), h)
  {
    RehashKeeps(Append(q, r, bio), h, r);
  }

  /** A front merge does not move the end, so no re-hashing is needed. */
  lemma {:induction false} PrependKeeps(q: Queue, h: HashFn, r: Rq, bio: Bio)
    requires HashOk(q, h) && r in q.sched && bio.sector + bio.size == q.reqs[r].sector
    ensures HashOk(Prepend(q, r, bio), h) && End(Prepend(q, r, bio).reqs[r]) == End(q.reqs[r])
  {
  }

  lemma {:induction false} FrontKeeps(q: Queue, h: HashFn, r: Rq, out: Option<Rq>)
    requires HashOk(q, h) && r in q.sched && out != Some(r)
    ensures HashOk(MergedFront(q, r, out), h)
  {
    if out.Some? { DispatchedKeeps(q, h, out.value); }
  }

  lemma {:induction false} RemoveKeeps(q: Queue, h: HashFn, r: Rq, n: Rq)
    requires HashOk(q, h) && r in q.sched && r != n
    ensures HashOk(Dropped(q, r, n), h)
  {
    DelKeeps(q, h, n);
  }

  lemma {:induction false} JoinKeeps(q: Queue, h: HashFn, r: Rq, n: Rq)
    requires Linked(q.hash, q.slot) && KeyedBut(q, h, r) && Complete(q) && Total(q, h)
    requires r in q.sched && n in q.sched && r != n
    ensures HashOk(Join(q, h, r, n), h)
  {
    var q1 := Grown(q, r, n);
    RehashKeeps(q1, h, r);
    var q2 := Rehash(q1, h, r).(last := Some(r));
    RemoveKeeps(q2, h, r, n);
  }
}
