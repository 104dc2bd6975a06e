// deadline-iosched.c as it works: a class whose methods update the scheduler in place, each proved against Deadline.
module DeadlineSched {
  import opened Lists
  import opened Directions
  import opened Deadline

  /** struct deadline_data, with the request fields it reads and the part of the queue it feeds. */
  class DeadlineData {
    var sortList: Two<seq<Rq>>
    var fifoList: Two<seq<Rq>>
    var nextRq: Two<Option<Rq>>
    var batching: nat
    var starved: nat
    var lastSector: nat
    var info: map<Rq, Info>
    var queueHead: seq<Rq>
    var nrSorted: int
    const tunables: Tunables

    ghost function Value(): State
      reads this
    {
      State(sortList, fifoList, nextRq, batching, starved, lastSector, info, queueHead, nrSorted)
    }

    /** deadline_init_queue */
    constructor (t: Tunables)
      ensures Value() == Init() && tunables == t
    {
      tunables := t;
      sortList, fifoList, nextRq := Two([], []), Two([], []), Two(None, None);
      batching, starved, lastSector := 0, 0, 0;
      info, queueHead, nrSorted := map[], [], 0;
    }

    /** rb_next */
    method RbNext(d: Dir, r: Rq) returns (n: Option<Rq>)
      requires NoDup(At(sortList, d))
      ensures n == NextOf(At(sortList, d), r)
    {
      var tree := At(sortList, d);
      var i := 0;
      while i < |tree| && tree[i] != r
        invariant 0 <= i <= |tree| && NextOf(tree, r) == NextOf(tree[i..], r)
      {
        assert tree[i..][1..] == tree[i + 1..];
        i := i + 1;
      }
      if i + 1 < |tree| {
        assert tree[i..][0] == r && tree[i..][1] == tree[i + 1];
        return Some(tree[i + 1]);
      }
      return None;
    }

    /** The walk goes past an entry with a smaller sector. */
    static lemma {:induction false} PastOne(tree: seq<Rq>, info: map<Rq, Info>, r: Rq, i: nat)
      requires i < |tree| && SectorOf(info, tree[i]) < SectorOf(info, r)
      ensures Alias(tree[i..], info, SectorOf(info, r)) == Alias(tree[i + 1..], info, SectorOf(info, r))
      ensures tree[..i] + Insert(tree[i..], info, r) == tree[..i + 1] + Insert(tree[i + 1..], info, r)
    {
      assert tree[i..][0] == tree[i] && tree[i..][1..] == tree[i + 1..];
      assert tree[..i] + [tree[i]] == tree[..i + 1];
      assert tree[..i] + ([tree[i]] + Insert(tree[i + 1..], info, r))
             == (tree[..i] + [tree[i]]) + Insert(tree[i + 1..], info, r);
    }

    /** What is not before the sector is at it or after it. */
    static lemma {:induction false} RestIsLater(rest: seq<Rq>, info: map<Rq, Info>, sector: nat, tree: seq<Rq>, i: nat)
      requires i <= |tree| && rest == tree[i..] && Increasing(tree, Sectors(info))
      requires |rest| > 0 ==> SectorOf(info, rest[0]) >= sector
      ensures |rest| > 0 && SectorOf(info, rest[0]) == sector ==> Alias(rest, info, sector) == Some(rest[0])
      ensures |rest| == 0 || SectorOf(info, rest[0]) > sector ==> Alias(rest, info, sector) == None
    {
      if |rest| > 0 && SectorOf(info, rest[0]) > sector {
        AliasIs(rest, info, sector);
        forall r | r in rest ensures SectorOf(info, r) > sector {
          var j :| 0 <= j < |rest| && rest[j] == r;
          if j > 0 { assert Sectors(info)(tree[i]) < Sectors(info)(tree[i + j]); }
        }
      }
    }

    /** Where the walk stops there is the alias, or the place of the request. */
    static lemma {:induction false} StopsHere(tree: seq<Rq>, info: map<Rq, Info>, r: Rq, i: nat)
      requires i <= |tree| && Increasing(tree, Sectors(info))
      requires i < |tree| ==> SectorOf(info, tree[i]) >= SectorOf(info, r)
      requires Alias(tree, info, SectorOf(info, r)) == Alias(tree[i..], info, SectorOf(info, r))
      requires Insert(tree, info, r) == tree[..i] + Insert(tree[i..], info, r)
      ensures i < |tree| && SectorOf(info, tree[i]) == SectorOf(info, r) ==>
                Alias(tree, info, SectorOf(info, r)) == Some(tree[i])
      ensures i == |tree| || SectorOf(info, tree[i]) != SectorOf(info, r) ==>
                Alias(tree, info, SectorOf(info, r)) == None && Insert(tree, info, r) == tree[..i] + [r] + tree[i..]
    {
      var rest := tree[i..];
      assert i < |tree| ==> rest[0] == tree[i];
      RestIsLater(rest, info, SectorOf(info, r), tree, i);
      assert tree[..i] + ([r] + rest) == tree[..i] + [r] + rest;
    }

    /** elv_rb_add: the request goes to its place, unless another one has its sector. */
    method RbAdd(d: Dir, r: Rq) returns (alias: Option<Rq>)
      requires Increasing(At(sortList, d), Sectors(info))
      modifies this`sortList
      ensures alias == Alias(old(At(sortList, d)), info, SectorOf(info, r))
      ensures sortList ==
              if alias.Some? then old(sortList)
              else With(old(sortList), d, Insert(old(At(sortList, d)), info, r))
    {
      var tree: seq<Rq> := At(sortList, d);
      var sector := SectorOf(info, r);
      var i := 0;
      while i < |tree| && SectorOf(info, tree[i]) < sector
        invariant 0 <= i <= |tree| && sortList == old(sortList)
        invariant Alias(tree, info, sector) == Alias(tree[i..], info, sector)
        invariant Insert(tree, info, r) == tree[..i] + Insert(tree[i..], info, r)
      {
        PastOne(tree, info, r, i);
        i := i + 1;
      }
      StopsHere(tree, info, r, i);
      if i < |tree| && SectorOf(info, tree[i]) == sector {
        return Some(tree[i]);
      }
      tree := tree[..i] + [r] + tree[i..];
      sortList := With(sortList, d, tree);
      return None;
    }

    /** deadline_move_request */
    method MoveRequest(r: Rq)
      requires NoDup(At(sortList, DirOf(info, r)))
      modifies this`sortList, this`fifoList, this`nextRq, this`lastSector, this`queueHead, this`nrSorted
      ensures Value() == Move(old(Value()), DirOf(info, r), r)
    {
      var d := DirOf(info, r);
      var next := RbNext(d, r);
      nextRq := Two(None, None);
      nextRq := With(nextRq, d, next);
      lastSector := EndOf(info, r);
      fifoList := With(fifoList, d, Without(At(fifoList, d), r));
      sortList := With(sortList, d, Without(At(sortList, d), r));
      nrSorted := nrSorted - 1;
      queueHead := queueHead + [r];
    }

    static lemma {:induction false} EvictFirst(s: State, out: Two<set<Rq>>, d: Dir, r: Rq, a: Rq)
      requires Linked(s, out) && Alias(At(s.tree, d), s.info, SectorOf(s.info, r)) == Some(a)
      ensures AddToTree(s, d, r) == AddToTree(Move(s, d, a), d, r) && Linked(Move(s, d, a), out)
      ensures NoDup(At(s.tree, d)) && DirOf(s.info, a) == d && |Without(At(s.tree, d), a)| < |At(s.tree, d)|
    {
      AliasIs(At(s.tree, d), s.info, SectorOf(s.info, r));
      FifoDir(s, out, d, a);
      IncreasingNoDup(At(s.tree, d), Sectors(s.info));
      MoveKeeps(s, out, d, a);
      WithoutShorter(At(s.tree, d), a);
    }

    /** deadline_add_rq_rb */
    method AddRqRb(r: Rq, ghost out: Two<set<Rq>>)
      requires Linked(Value(), out) && r in info
      modifies this`sortList, this`fifoList, this`nextRq, this`lastSector, this`queueHead, this`nrSorted
      ensures Value() == AddToTree(old(Value()), DirOf(info, r), r)
    {
      var d := DirOf(info, r);
      var alias := RbAdd(d, r);
      while alias.Some?
        invariant alias.Some? ==> Linked(Value(), out) && alias == Alias(At(sortList, d), info, SectorOf(info, r))
        invariant alias.Some? ==> AddToTree(Value(), d, r) == AddToTree(old(Value()), d, r)
        invariant alias.None? ==> Value() == AddToTree(old(Value()), d, r)
        decreases alias.Some?, |At(sortList, d)|
      {
        EvictFirst(Value(), out, d, r, alias.value);
        MoveRequest(alias.value);
        alias := RbAdd(d, r);
      }
    }

    /** elv_insert with ELEVATOR_INSERT_SORT, calling deadline_add_request. */
    method AddRequest(r: Rq, dir: Dir, sector: nat, size: nat, now: int)
      requires Coherent(Value()) && r !in info
      modifies this`sortList, this`fifoList, this`nextRq, this`lastSector, this`queueHead, this`nrSorted, this`info
      ensures Value() == Add(old(Value()), r, Info(dir, sector, size, now + At(tunables.expire, dir)))
      ensures Coherent(Value())
    {
      ghost var i := Info(dir, sector, size, now + At(tunables.expire, dir));
      RegisterKeeps(Value(), r, i);
      AddKeeps(Value(), r, i);
      info := info[r := Info(dir, sector, size, now + At(tunables.expire, dir))];
      nrSorted := nrSorted + 1;
      AddRqRb(r, NONE);
      fifoList := With(fifoList, dir, At(fifoList, dir) + [r]);
    }

    /** A bio merged at the front of a request, and deadline_merged_request. */
    method MergedFront(r: Rq, n: nat)
      requires Coherent(Value()) && r in info && r in At(sortList, info[r].dir) && n <= info[r].sector
      modifies this`sortList, this`fifoList, this`nextRq, this`lastSector, this`queueHead, this`nrSorted, this`info
      ensures Value() == FrontMerge(old(Value()), r, n)
      ensures Coherent(Value())
    {
      FrontMergeKeeps(Value(), r, n);
      var d := info[r].dir;
      var i := info[r].(sector := info[r].sector - n, size := info[r].size + n);
      Reposition(d, r, i);
    }

    /** The request has a new first sector and goes to its new place. */
    method Reposition(d: Dir, r: Rq, i: Info)
      requires Linked(Value(), NONE) && r in At(sortList, d) && i.dir == d
      modifies this`sortList, this`fifoList, this`nextRq, this`lastSector, this`queueHead, this`nrSorted, this`info
      ensures Value() == AddToTree(TakenOut(old(Value()), d, r, i), d, r)
    {
      TakeOutKeeps(Value(), d, r, i);
      info := info[r := i];
      sortList := With(sortList, d, Without(At(sortList, d), r));
      AddRqRb(r, Only(d, r));
    }

    static lemma {:induction false} PastAnother(f: seq<Rq>, y: Rq, x: Rq, i: nat)
      requires i < |f| && f[i] != y
      ensures f[..i] + PutAfter(f[i..], y, x) == f[..i + 1] + PutAfter(f[i + 1..], y, x)
    {
      assert f[i..][0] == f[i] && f[i..][1..] == f[i + 1..];
      assert f[..i] + [f[i]] == f[..i + 1];
      assert f[..i] + ([f[i]] + PutAfter(f[i + 1..], y, x)) == (f[..i] + [f[i]]) + PutAfter(f[i + 1..], y, x);
    }

    /** list_add: x right after y. */
    static method AddAfter(f: seq<Rq>, y: Rq, x: Rq) returns (g: seq<Rq>)
      ensures g == PutAfter(f, y, x)
    {
      var i := 0;
      while i < |f| && f[i] != y
        invariant 0 <= i <= |f| && PutAfter(f, y, x) == f[..i] + PutAfter(f[i..], y, x)
      {
        PastAnother(f, y, x, i);
        i := i + 1;
      }
      if i < |f| {
        assert f[i..][0] == y && f[i..][1..] == f[i + 1..];
        g := f[..i] + ([y, x] + f[i + 1..]);
      } else {
        g := f;
      }
    }

    /** The FIFO part of deadline_merged_requests. */
    method MergeFifo(d: Dir, r: Rq, n: Rq) returns (expiry: int)
      requires r in info && n in info
      modifies this`fifoList
      ensures fifoList == With(old(fifoList), d, MergedFifo(old(At(fifoList, d)), info, r, n))
      ensures expiry == if info[n].expiry < info[r].expiry then info[n].expiry else info[r].expiry
    {
      expiry := info[r].expiry;
      if info[n].expiry < info[r].expiry {
        var moved := AddAfter(Without(At(fifoList, d), r), n, r);
        fifoList := With(fifoList, d, moved);
        expiry := info[n].expiry;
      }
      fifoList := With(fifoList, d, Without(At(fifoList, d), n));
    }

    /** deadline_del_rq_rb: the request leaves the tree, and its successor is next if it was */
    method DropFromTree(d: Dir, n: Rq)
      requires NoDup(At(sortList, d))
      modifies this`sortList, this`nextRq
      ensures nextRq == if old(At(nextRq, d)) == Some(n) then With(old(nextRq), d, NextOf(old(At(sortList, d)), n))
                        else old(nextRq)
      ensures sortList == With(old(sortList), d, Without(old(At(sortList, d)), n))
    {
      if At(nextRq, d) == Some(n) {
        var next := RbNext(d, n);
        nextRq := With(nextRq, d, next);
      }
      sortList := With(sortList, d, Without(At(sortList, d), n));
    }

    /** The later request goes, and the earlier one takes over its sectors and the earlier time and place */
    method Absorb(r: Rq, n: Rq)
      requires r in info && n in info && NoDup(At(sortList, info[n].dir))
      modifies this`sortList, this`fifoList, this`nextRq, this`nrSorted, this`info
      ensures Value() == MergeRequests(old(Value()), r, n)
    {
      var d := info[n].dir;
      var expiry := MergeFifo(d, r, n);
      info := info[r := info[r].(size := info[r].size + info[n].size, expiry := expiry)];
      DropFromTree(d, n);
      nrSorted := nrSorted - 1;
    }

    /** attempt_merge and elv_merge_requests for two queued requests, calling deadline_merged_requests. */
    method MergedRequests(r: Rq, n: Rq)
      requires Coherent(Value()) && r in info && n in info && r != n && info[r].dir == info[n].dir
      requires r in At(sortList, info[r].dir) && n in At(sortList, info[n].dir)
      modifies this`sortList, this`fifoList, this`nextRq, this`nrSorted, this`info
      ensures Value() == MergeRequests(old(Value()), r, n)
      ensures Coherent(Value())
    {
      MergeKeeps(Value(), info[r].dir, r, n);
      IncreasingNoDup(At(sortList, info[n].dir), Sectors(info));
      Absorb(r, n);
    }

    /** dispatch_find_request */
    method FindRequest(d: Dir, now: int) returns (r: Rq)
      requires |At(fifoList, d)| > 0 && |At(sortList, d)| > 0
      modifies this`batching
      ensures (r, batching) == Select(old(Value()), d, old(batching), now)
    {
      if now > ExpiryOf(info, At(fifoList, d)[0]) {
        batching := 0;
        r := At(fifoList, d)[0];
      } else if At(nextRq, d).Some? {
        r := At(nextRq, d).value;
      } else {
        batching := 0;
        r := At(sortList, d)[0];
      }
    }

    /** The choice of deadline_dispatch_requests. */
    method ChooseRequest(now: int) returns (r: Rq)
      requires Busy(Value()) && Choosable(Value())
      modifies this`batching, this`starved
      ensures (r, batching) == Choice(old(Value()), tunables, now) && starved == Starved(old(Value()), tunables)
    {
      var hasReads, hasWrites := |fifoList.read| > 0, |fifoList.write| > 0;
      var rq := if nextRq.write.Some? then nextRq.write else nextRq.read;
      if rq.Some? {
        if lastSector != SectorOf(info, rq.value) {
          batching := batching + tunables.fifoBatch;
        }
        if batching < tunables.fifoBatch {
          return rq.value;
        }
      }
      var d := Read;
      if hasReads {
        if hasWrites {
          starved := starved + 1;
        }
        if hasWrites && starved - 1 >= tunables.writesStarved {
          starved := 0;
          d := Write;
        }
      } else {
        starved := 0;
        d := Write;
      }
      r := FindRequest(d, now);
    }

    /** deadline_dispatch_requests */
    method DispatchRequests(now: int) returns (done: bool)
      requires Coherent(Value())
      modifies this`sortList, this`fifoList, this`nextRq, this`lastSector, this`queueHead, this`nrSorted,
          this`batching, this`starved
      ensures done == old(Busy(Value()))
      ensures done ==> Choosable(old(Value())) && Value() == Dispatch(old(Value()), tunables, now)
      ensures !done ==> Value() == old(Value())
      ensures Coherent(Value()) && info == old(info)
    {
      if |fifoList.read| == 0 && |fifoList.write| == 0 {
        return false;
      }
      CanChoose(Value());
      DispatchKeeps(Value(), tunables, now);
      ChoiceQueued(Value(), tunables, now);
      IncreasingNoDup(sortList.read, Sectors(info));
      IncreasingNoDup(sortList.write, Sectors(info));
      var r := ChooseRequest(now);
      batching := batching + 1;
      MoveRequest(r);
      return true;
    }

    /** elv_drain_elevator */
    method DrainElevator(now: int)
      requires Coherent(Value())
      modifies this`sortList, this`fifoList, this`nextRq, this`lastSector, this`queueHead, this`nrSorted,
          this`batching, this`starved
      ensures Value() == Drained(old(Value()), tunables, now)
      ensures nrSorted == 0 && |fifoList.read| == 0 && |fifoList.write| == 0
    {
      ghost var start := Value();
      DrainEmpties(start, tunables, now);
      var done := true;
      while done
        invariant Coherent(Value()) && Drained(Value(), tunables, now) == Drained(start, tunables, now)
        invariant !done ==> !Busy(Value())
        decreases done, Total(Value())
      {
        ghost var before := Value();
        CanChoose(before);
        if Busy(before) { DispatchKeeps(before, tunables, now); }
        done := DispatchRequests(now);
      }
    }
  }
}
