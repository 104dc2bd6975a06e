// The merge hash, the one-hit cache and the merging part of __make_request, updating the queue in place.
module MergeQueue {
  import opened Lists
  import opened Merging
  import opened BioConservation

  class MergeableQueue {
    var reqs: map<Rq, Req>
    var sched: set<Rq>
    const hash: array<seq<Rq>>
    var slot: map<Rq, nat>
    var lastMerge: Option<Rq>
    const h: HashFn
    const maxSectors: nat

    ghost function Value(): Queue
      reads this, hash
    {
      Queue(reqs, sched, hash[..], slot, lastMerge)
    }

    constructor (h: HashFn, buckets: nat, maxSectors: nat)
      requires buckets > 0 && forall x :: h(x) < buckets
      ensures HashOk(Value(), this.h) && reqs == map[] && fresh(hash) && this.h == h && this.maxSectors == maxSectors
    {
      this.h, this.maxSectors := h, maxSectors;
      hash := new seq<Rq>[buckets](_ => []);
      reqs, sched, slot, lastMerge := map[], {}, map[], None;
    }

    /** elv_rqhash_add */
    method RqHashAdd(r: Rq)
      requires r in reqs && h(End(reqs[r])) < hash.Length
      modifies this`slot, hash
      ensures Value() == HashAdd(old(Value()), h, r)
    {
      var b := h(End(reqs[r]));
      hash[b] := [r] + hash[b];
      slot := slot[r := b];
    }

    /** elv_rqhash_del */
    method RqHashDel(r: Rq)
      requires r in slot ==> slot[r] < hash.Length
      modifies this`slot, hash
      ensures Value() == HashDel(old(Value()), r)
    {
      if r in slot {
        hash[slot[r]] := Without(hash[slot[r]], r);
        slot := slot - {r};
      }
    }

    /** elv_rqhash_reposition */
    method RqHashReposition(r: Rq)
      requires (r in slot ==> slot[r] < hash.Length) && r in reqs && h(End(reqs[r])) < hash.Length
      modifies this`slot, hash
      ensures Value() == Rehash(old(Value()), h, r)
    {
      RqHashDel(r);
      RqHashAdd(r);
    }

    /** While bucket b is searched: only entries of that bucket have gone, and `left` is still linked. */
    ghost static predicate Searching(q: Queue, b: nat, hash: seq<seq<Rq>>, slot: map<Rq, nat>, left: seq<Rq>) {
      && b < |q.hash| && hash == q.hash[b := left] && Linked(hash, slot)
      && (forall r :: r in slot ==> r in q.slot && slot[r] == q.slot[r])
      && (forall r :: r in q.slot && q.slot[r] != b ==> r in slot)
    }

    static lemma {:induction false} DropFirst(q: Queue, b: nat, hash: seq<seq<Rq>>, slot: map<Rq, nat>, kept: seq<Rq>,
                                              rest: seq<Rq>)
      requires Searching(q, b, hash, slot, kept + rest) && |rest| > 0
      ensures Searching(q, b, hash[b := kept + rest[1..]], slot - {rest[0]}, kept + rest[1..])
    {
      var r := rest[0];
      assert (kept + rest)[|kept|] == r;
      assert r in hash[b];
      DelLinked(hash, slot, r);
      WithoutAt(kept + rest, |kept|);
      assert (kept + rest)[..|kept|] + (kept + rest)[|kept| + 1..] == kept + rest[1..];
    }

    static lemma {:induction false} Searched(q: Queue, b: nat, hash: seq<seq<Rq>>, slot: map<Rq, nat>, left: seq<Rq>)
      requires Searching(q, b, hash, slot, left)
      ensures slot == map r | r in q.slot && (q.slot[r] != b || r in left) :: q.slot[r]
    {
      forall r | r in slot ensures q.slot[r] != b || r in left {
        assert r in hash[slot[r]];
      }
      forall r | r in left ensures r in slot && slot[r] == b {
        assert r in hash[b];
      }
    }

    static lemma {:induction false} FindIs(q: Queue, q': Queue, h: HashFn, offset: nat, found: Option<Rq>,
                                           left: seq<Rq>)
      requires h(offset) < |q.hash| && Searching(q, h(offset), q'.hash, q'.slot, left)
      requires Scan(q.hash[h(offset)], q.reqs, offset).0 == found && Scan(q.hash[h(offset)], q.reqs, offset).1 == left
      requires q'.reqs == q.reqs && q'.sched == q.sched && q'.last == q.last
      ensures Find(q, h, offset).0 == found && Find(q, h, offset).1 == q'
    {
      Searched(q, h(offset), q'.hash, q'.slot, left);
      assert Find(q, h, offset).1.hash == q'.hash;
      assert Find(q, h, offset).1.slot == q'.slot;
    }

    /** A bucket has been scanned up to `rest`, and `kept` stays linked. */
    ghost static predicate Scanned(list: seq<Rq>, reqs: map<Rq, Req>, offset: nat, kept: seq<Rq>, rest: seq<Rq>) {
      && Scan(list, reqs, offset).0 == Scan(rest, reqs, offset).0
      && Scan(list, reqs, offset).1 == kept + Scan(rest, reqs, offset).1
    }

    static lemma {:induction false} ScanOne(list: seq<Rq>, reqs: map<Rq, Req>, offset: nat, kept: seq<Rq>,
                                            rest: seq<Rq>)
      requires |rest| > 0 && Scanned(list, reqs, offset, kept, rest)
      ensures rest[0] !in reqs || reqs[rest[0]].closed ==> Scanned(list, reqs, offset, kept, rest[1..])
      ensures rest[0] in reqs && !reqs[rest[0]].closed && End(reqs[rest[0]]) == offset
              ==> Scan(list, reqs, offset).0 == Some(rest[0]) && Scan(list, reqs, offset).1 == kept + rest
      ensures rest[0] in reqs && !reqs[rest[0]].closed && End(reqs[rest[0]]) != offset
              ==> Scanned(list, reqs, offset, kept + [rest[0]], rest[1..])
    {
      var r := rest[0];
      var tail := Scan(rest[1..], reqs, offset).1;
      assert kept + [r] + tail == kept + ([r] + tail);
    }

    /** elv_rqhash_find */
    method RqHashFind(offset: nat) returns (found: Option<Rq>)
      requires HashOk(Value(), h)
      modifies this`slot, hash
      ensures found == Find(old(Value()), h, offset).0 && Value() == Find(old(Value()), h, offset).1
    {
      ghost var q := Value();
      ghost var left;
      found, left := ScanBucket(h(offset), offset, q);
      FindIs(q, Value(), h, offset, found, left);
    }

    /** Its loop over one bucket, which unlinks the requests that take no more bios. */
    method ScanBucket(b: nat, offset: nat, ghost q: Queue) returns (found: Option<Rq>, ghost left: seq<Rq>)
      requires reqs == q.reqs && b < hash.Length && b < |q.hash| && Searching(q, b, hash[..], slot, q.hash[b])
      requires hash[b] == q.hash[b]
      modifies this`slot, hash
      ensures Searching(q, b, hash[..], slot, left)
      ensures found == Scan(q.hash[b], q.reqs, offset).0 && left == Scan(q.hash[b], q.reqs, offset).1
    {
      var kept: seq<Rq>, rest := [], hash[b];
      assert kept + rest == rest && kept + Scan(rest, q.reqs, offset).1 == Scan(rest, q.reqs, offset).1;
      while |rest| > 0
        invariant Searching(q, b, hash[..], slot, kept + rest) && Scanned(q.hash[b], q.reqs, offset, kept, rest)
      {
        var stop: bool;
        stop, kept := ScanStep(b, offset, q, kept, rest);
        if stop {
          return Some(rest[0]), kept + rest;
        }
        rest := rest[1..];
      }
      assert kept + rest == kept && kept + [] == kept;
      return None, kept;
    }

    /** One turn of the loop: the request is unlinked, found, or kept */
    method ScanStep(b: nat, offset: nat, ghost q: Queue, kept: seq<Rq>, rest: seq<Rq>)
        returns (stop: bool, kept': seq<Rq>)
      requires reqs == q.reqs && b < hash.Length && b < |q.hash| && |rest| > 0
      requires Searching(q, b, hash[..], slot, kept + rest) && Scanned(q.hash[b], q.reqs, offset, kept, rest)
      modifies this`slot, hash
      ensures stop ==> kept' == kept && Searching(q, b, hash[..], slot, kept + rest)
                       && Scan(q.hash[b], q.reqs, offset).0 == Some(rest[0])
                       && Scan(q.hash[b], q.reqs, offset).1 == kept + rest
      ensures !stop ==>
              Searching(q, b, hash[..], slot, kept' + rest[1..]) && Scanned(q.hash[b], q.reqs, offset, kept', rest[1..])
    {
      var r := rest[0];
      ScanOne(q.hash[b], q.reqs, offset, kept, rest);
      stop, kept' := false, kept;
      if r !in reqs || reqs[r].closed {
        DropFirst(q, b, hash[..], slot, kept, rest);
        Unlink(b, r, kept + rest[1..]);
      } else if End(reqs[r]) == offset {
        stop := true;
      } else {
        assert kept + [r] + rest[1..] == kept + rest;
        kept' := kept + [r];
      }
    }

    method Unlink(b: nat, r: Rq, left: seq<Rq>)
      requires b < hash.Length
      modifies this`slot, hash
      ensures hash[..] == old(hash[..])[b := left] && slot == old(slot) - {r}
    {
      hash[b] := left;
      slot := slot - {r};
    }

    /** elv_insert with ELEVATOR_INSERT_SORT */
    method InsertSorted(r: Rq, req: Req)
      requires HashOk(Value(), h) && r !in reqs
      modifies this`reqs, this`sched, this`slot, this`lastMerge, hash
      ensures Value() == Insert(old(Value()), h, r, req) && HashOk(Value(), h)
    {
      InsertKeeps(Value(), h, r, req);
      reqs := reqs[r := req];
      sched := sched + {r};
      if !req.closed {
        RqHashAdd(r);
        if lastMerge.None? {
          lastMerge := Some(r);
        }
      }
    }

    /** The merging side of elv_dispatch_sort and elv_dispatch_add_tail. */
    method LeaveScheduler(r: Rq)
      requires HashOk(Value(), h)
      modifies this`sched, this`slot, this`lastMerge, hash
      ensures Value() == Dispatched(old(Value()), r) && HashOk(Value(), h) && r !in slot
    {
      DispatchedKeeps(Value(), h, r);
      if lastMerge == Some(r) {
        lastMerge := None;
      }
      RqHashDel(r);
      sched := sched - {r};
    }

    /** elv_try_merge */
    method TryMergeWith(r: Rq, bio: Bio) returns (m: Merge)
      ensures m == TryMerge(Value(), r, bio)
    {
      m := NoMerge;
      if r in reqs && !reqs[r].closed && bio.write == reqs[r].write && reqs[r].disk == bio.disk && !reqs[r].special {
        if reqs[r].sector + reqs[r].size == bio.sector {
          m := BackMerge(r);
        } else if reqs[r].sector - bio.size == bio.sector {
          m := FrontMerge(r);
        }
      }
    }

    /** elv_merge */
    method FindMerge(bio: Bio, front: Option<Rq>) returns (m: Merge)
      requires HashOk(Value(), h) && FrontCandidate(Value(), bio, front)
      modifies this`slot, hash
      ensures m == ElvMerge(old(Value()), h, bio, front).0 && Value() == ElvMerge(old(Value()), h, bio, front).1
      ensures HashOk(Value(), h)
      ensures m.BackMerge? ==> FitsBack(Value(), m.r, bio)
      ensures m.FrontMerge? ==> FitsFront(Value(), m.r, bio)
    {
      ElvMergeFits(Value(), h, bio, front);
      if lastMerge.Some? {
        m := TryMergeWith(lastMerge.value, bio);
        if m != NoMerge {
          return;
        }
      }
      var found := RqHashFind(bio.sector);
      if found.Some? && MergeAllowed(found.value, bio) {
        return BackMerge(found.value);
      }
      if front.Some? && MergeAllowed(front.value, bio) {
        return FrontMerge(front.value);
      }
      return NoMerge;
    }

    /** elv_rq_merge_ok */
    predicate MergeAllowed(r: Rq, bio: Bio)
      reads this, hash
      ensures MergeAllowed(r, bio) <==> MergeOk(Value(), r, bio)
    {
      r in reqs && !reqs[r].closed && bio.write == reqs[r].write && reqs[r].disk == bio.disk && !reqs[r].special
    }

    /** A merge that does not fit: REQ_NOMERGE, and the cache forgets the request. */
    method CloseRequest(r: Rq)
      requires r in reqs
      modifies this`reqs, this`lastMerge
      ensures Value() == Close(old(Value()), r)
    {
      reqs := reqs[r := reqs[r].(closed := true)];
      if lastMerge == Some(r) {
        lastMerge := None;
      }
    }

    /** attempt_merge, with elv_merge_requests */
    method AttemptMerge(r: Rq, n: Rq, segsOk: bool) returns (joined: bool)
      requires Linked(hash[..], slot) && r in reqs && n in reqs && r != n && Total(Value(), h)
      modifies this`reqs, this`sched, this`slot, this`lastMerge, hash
      ensures joined == CanJoin(old(Value()), r, n, maxSectors, segsOk)
      ensures Value() == if joined then Join(old(Value()), h, r, n) else old(Value())
    {
      if reqs[r].closed || reqs[n].closed {
        return false;
      }
      if reqs[r].sector + reqs[r].size != reqs[n].sector {
        return false;
      }
      if reqs[r].write != reqs[n].write || reqs[r].disk != reqs[n].disk || reqs[n].special {
        return false;
      }
      if reqs[r].special || reqs[r].size + reqs[n].size > maxSectors || !segsOk {
        return false;
      }
      JoinRequests(r, n);
      return true;
    }

    method JoinRequests(r: Rq, n: Rq)
      requires Linked(hash[..], slot) && r in reqs && n in reqs && r != n && Total(Value(), h)
      modifies this`reqs, this`sched, this`slot, this`lastMerge, hash
      ensures Value() == Join(old(Value()), h, r, n)
    {
      Grow(r, n);
      LinkedStays(Value(), h, r);
      RqHashReposition(r);
      Drop(r, n);
    }

    method Grow(r: Rq, n: Rq)
      requires r in reqs && n in reqs
      modifies this`reqs
      ensures Value() == Grown(old(Value()), r, n)
    {
      reqs := reqs[r := reqs[r].(bios := reqs[r].bios + reqs[n].bios, size := reqs[r].size + reqs[n].size)];
    }

    method Drop(r: Rq, n: Rq)
      requires n in slot ==> slot[n] < hash.Length
      modifies this`reqs, this`sched, this`slot, this`lastMerge, hash
      ensures Value() == Dropped(old(Value()), r, n)
    {
      RqHashDel(n);
      sched := sched - {n};
      lastMerge := Some(r);
      reqs := reqs - {n};
    }

    static lemma {:induction false} LinkedStays(q: Queue, h: HashFn, r: Rq)
      requires Linked(q.hash, q.slot) && r in q.reqs && Total(q, h)
      ensures var q' := Rehash(q, h, r); Linked(q'.hash, q'.slot)
    {
      if r in q.slot { DelLinked(q.hash, q.slot, r); }
      var q1 := HashDel(q, r);
      AddLinked(q1.hash, q1.slot, h(End(q.reqs[r])), r);
    }

    /** The ELEVATOR_BACK_MERGE case of __make_request */
    method MergeAtBack(r: Rq, bio: Bio, c: Choices) returns (merged: bool)
      requires HashOk(Value(), h) && FitsBack(Value(), r, bio) && Others(Value(), c, r)
      modifies this`reqs, this`sched, this`slot, this`lastMerge, hash
      ensures merged == SubmitBack(old(Value()), h, maxSectors, bio, c, r).0
      ensures Value() == SubmitBack(old(Value()), h, maxSectors, bio, c, r).1
      ensures HashOk(Value(), h)
    {
      BackHash(Value(), h, maxSectors, bio, c, r);
      if reqs[r].size + bio.size > maxSectors || !c.segsOk {
        CloseRequest(r);
        return false;
      }
      AppendBio(r, bio);
      if c.neighbour.Some? {
        var joined := AttemptMerge(r, c.neighbour.value, c.joinOk);
        if joined {
          return true;
        }
      }
      LinkedStays(Value(), h, r);
      RqHashReposition(r);
      lastMerge := Some(r);
      return true;
    }

    method AppendBio(r: Rq, bio: Bio)
      requires r in reqs
      modifies this`reqs
      ensures Value() == Append(old(Value()), r, bio)
    {
      reqs := reqs[r := reqs[r].(bios := reqs[r].bios + [bio], size := reqs[r].size + bio.size)];
    }

    method PrependBio(r: Rq, bio: Bio)
      requires r in reqs
      modifies this`reqs
      ensures Value() == Prepend(old(Value()), r, bio)
    {
      reqs := reqs[r := reqs[r].(bios := [bio] + reqs[r].bios, sector := bio.sector, size := reqs[r].size + bio.size)];
    }

    /** The ELEVATOR_FRONT_MERGE case of __make_request */
    method MergeAtFront(r: Rq, bio: Bio, c: Choices) returns (merged: bool)
      requires HashOk(Value(), h) && FitsFront(Value(), r, bio) && Others(Value(), c, r)
      modifies this`reqs, this`sched, this`slot, this`lastMerge, hash
      ensures merged == SubmitFront(old(Value()), h, maxSectors, bio, c, r).0
      ensures Value() == SubmitFront(old(Value()), h, maxSectors, bio, c, r).1
      ensures HashOk(Value(), h)
    {
      FrontHash(Value(), h, maxSectors, bio, c, r);
      if reqs[r].size + bio.size > maxSectors || !c.segsOk {
        CloseRequest(r);
        return false;
      }
      PrependKeeps(Value(), h, r, bio);
      PrependBio(r, bio);
      if c.neighbour.Some? {
        var joined := AttemptMerge(c.neighbour.value, r, c.joinOk);
        if joined {
          return true;
        }
      }
      if c.out.Some? {
        LeaveScheduler(c.out.value);
      }
      lastMerge := Some(r);
      return true;
    }

    /** The merging part of __make_request */
    method MakeRequest(bio: Bio, c: Choices) returns (merged: bool)
      requires HashOk(Value(), h) && FrontCandidate(Value(), bio, c.front)
      requires var m := ElvMerge(Value(), h, bio, c.front).0; m != NoMerge ==> Others(Value(), c, m.r)
      modifies this`reqs, this`sched, this`slot, this`lastMerge, hash
      ensures merged == Submit(old(Value()), h, maxSectors, bio, c).0
      ensures Value() == Submit(old(Value()), h, maxSectors, bio, c).1
      ensures HashOk(Value(), h)
    {
      ElvMergeFits(Value(), h, bio, c.front);
      var m := FindMerge(bio, c.front);
      match m
      case BackMerge(r) => merged := MergeAtBack(r, bio, c);
      case FrontMerge(r) => merged := MergeAtFront(r, bio, c);
      case NoMerge => merged := false;
    }
  }
}
