// deadline-iosched.c: the scheduler's tree, FIFO and batch state as values, and one function for each operation.
module Deadline {
  import opened Lists
  import opened Directions

  type Rq = nat

  /** The fields of a request the scheduler looks at. */
  datatype Info = Info(dir: Dir, sector: nat, size: nat, expiry: int)

  /** The settings of the scheduler; writesStarved is the setting as the unsigned number it is compared as. */
  datatype Tunables = Tunables(expire: Two<nat>, fifoBatch: nat, writesStarved: nat)

  datatype State = State(
    tree: Two<seq<Rq>>,           // sort_list, by sector
    fifo: Two<seq<Rq>>,           // fifo_list
    next: Two<Option<Rq>>,        // next_rq
    batching: nat,
    starved: nat,
    last: nat,                    // last_sector
    info: map<Rq, Info>,
    queue: seq<Rq>,               // the dispatch queue
    sorted: int)                  // nr_sorted

  function Init(): State {
    State(Two([], []), Two([], []), Two(None, None), 0, 0, 0, map[], [], 0)
  }

  function DirOf(info: map<Rq, Info>, r: Rq): Dir { if r in info then info[r].dir else Read }

  function SectorOf(info: map<Rq, Info>, r: Rq): nat { if r in info then info[r].sector else 0 }

  function EndOf(info: map<Rq, Info>, r: Rq): nat { if r in info then info[r].sector + info[r].size else 0 }

  function ExpiryOf(info: map<Rq, Info>, r: Rq): int { if r in info then info[r].expiry else 0 }

  function Sectors(info: map<Rq, Info>): Rq -> int { (r: Rq) => SectorOf(info, r) }

  function Expiries(info: map<Rq, Info>): Rq -> int { (r: Rq) => ExpiryOf(info, r) }

  // ---------------------------------------------------------------- the sorted tree

  /** The request already at this sector (what elv_rb_add runs into). */
  function Alias(tree: seq<Rq>, info: map<Rq, Info>, sector: nat): Option<Rq> {
    if |tree| == 0 then None
    else if SectorOf(info, tree[0]) == sector then Some(tree[0])
    else Alias(tree[1..], info, sector)
  }

  function Insert(tree: seq<Rq>, info: map<Rq, Info>, r: Rq): seq<Rq> {
    if |tree| == 0 || SectorOf(info, r) < SectorOf(info, tree[0]) then [r] + tree
    else [tree[0]] + Insert(tree[1..], info, r)
  }

  /** rb_next */
  function NextOf(tree: seq<Rq>, r: Rq): Option<Rq> {
    if |tree| < 2 then None else if tree[0] == r then Some(tree[1]) else NextOf(tree[1..], r)
  }

  // ---------------------------------------------------------------- operations

  /** deadline_move_request: a request of direction d goes to the dispatch queue. */
  function Move(s: State, d: Dir, r: Rq): State {
    s.(next := With(Two(None, None), d, NextOf(At(s.tree, d), r)),
       last := EndOf(s.info, r),
       tree := With(s.tree, d, Without(At(s.tree, d), r)),
       fifo := With(s.fifo, d, Without(At(s.fifo, d), r)),
       queue := s.queue + [r],
       sorted := s.sorted - 1)
  }

  lemma {:induction false} AliasIs(tree: seq<Rq>, info: map<Rq, Info>, sector: nat)
    ensures Alias(tree, info, sector).Some? <==> exists r :: r in tree && SectorOf(info, r) == sector
    ensures Alias(tree, info, sector).Some? ==>
              Alias(tree, info, sector).value in tree && SectorOf(info, Alias(tree, info, sector).value) == sector
  {
    if |tree| > 0 {
      AliasIs(tree[1..], info, sector);
      assert tree[0] in tree;
      forall r | r in tree ensures r == tree[0] || r in tree[1..] { }
    }
  }

  lemma {:induction false} WithoutShorter(s: seq<Rq>, x: Rq)
    ensures |Without(s, x)| <= |s| && (x in s ==> |Without(s, x)| < |s|)
  {
    if |s| > 0 { WithoutShorter(s[1..], x); }
  }

  /** deadline_add_rq_rb: while there is an alias, it is moved to the dispatch queue. */
  function AddToTree(s: State, d: Dir, r: Rq): State
    decreases |At(s.tree, d)|
  {
    var alias := Alias(At(s.tree, d), s.info, SectorOf(s.info, r));
    AliasIs(At(s.tree, d), s.info, SectorOf(s.info, r));
    if alias.Some? then
      WithoutShorter(At(s.tree, d), alias.value);
      AddToTree(Move(s, d, alias.value), d, r)
    else s.(tree := With(s.tree, d, Insert(At(s.tree, d), s.info, r)))
  }

  /** A new request, counted but not queued yet (elv_insert with ELEVATOR_INSERT_SORT). */
  function Registered(s: State, r: Rq, i: Info): State {
    s.(info := s.info[r := i], sorted := s.sorted + 1)
  }

  /** deadline_add_request: into the tree, then to the tail of the FIFO. */
  function Enqueued(s: State, d: Dir, r: Rq): State {
    var s' := AddToTree(s, d, r);
    s'.(fifo := With(s'.fifo, d, At(s'.fifo, d) + [r]))
  }

  function Add(s: State, r: Rq, i: Info): State { Enqueued(Registered(s, r, i), i.dir, r) }

  /** A bio of n sectors merged at the end of a request. */
  function BackMerge(s: State, r: Rq, n: nat): State {
    if r in s.info then s.(info := s.info[r := s.info[r].(size := s.info[r].size + n)]) else s
  }

  /** Out of the tree, with a new first sector. */
  function TakenOut(s: State, d: Dir, r: Rq, i: Info): State {
    s.(info := s.info[r := i], tree := With(s.tree, d, Without(At(s.tree, d), r)))
  }

  /** A bio of n sectors merged at the front, and deadline_merged_request. */
  function FrontMerge(s: State, r: Rq, n: nat): State {
    if r !in s.info || s.info[r].sector < n then s
    else
      var d := s.info[r].dir;
      AddToTree(TakenOut(s, d, r, s.info[r].(sector := s.info[r].sector - n, size := s.info[r].size + n)), d, r)
  }

  /** The list with x right after y. */
  function PutAfter(s: seq<Rq>, y: Rq, x: Rq): seq<Rq> {
    if |s| == 0 then [] else if s[0] == y then [y, x] + s[1..] else [s[0]] + PutAfter(s[1..], y, x)
  }

  /** The FIFO of deadline_merged_requests: the merged request takes the earlier of the two places and times. */
  function MergedFifo(fifo: seq<Rq>, info: map<Rq, Info>, r: Rq, n: Rq): seq<Rq> {
    if ExpiryOf(info, n) < ExpiryOf(info, r) then Without(PutAfter(Without(fifo, r), n, r), n) else Without(fifo, n)
  }

  /** elv_merge_requests with deadline_merged_requests: n, which follows r, becomes part of r. */
  function MergeRequests(s: State, r: Rq, n: Rq): State {
    if r !in s.info || n !in s.info then s else
    var d := DirOf(s.info, n);
    var expiry := if ExpiryOf(s.info, n) < ExpiryOf(s.info, r) then ExpiryOf(s.info, n) else ExpiryOf(s.info, r);
    s.(info := s.info[r := s.info[r].(size := s.info[r].size + s.info[n].size, expiry := expiry)],
       fifo := With(s.fifo, d, MergedFifo(At(s.fifo, d), s.info, r, n)),
       next := if At(s.next, d) == Some(n) then With(s.next, d, NextOf(At(s.tree, d), n)) else s.next,
       tree := With(s.tree, d, Without(At(s.tree, d), n)),
       sorted := s.sorted - 1)
  }

  // ---------------------------------------------------------------- deadline_dispatch_requests

  /** The request the batch would go on with. */
  function Batched(s: State): Option<Rq> { if s.next.write.Some? then s.next.write else s.next.read }

  /** A next request that does not start where the last one ended uses up the batch. */
  function Charged(s: State, t: Tunables): nat {
    var r := Batched(s);
    if r.Some? && s.last != SectorOf(s.info, r.value) then s.batching + t.fifoBatch else s.batching
  }

  predicate Entitled(s: State, t: Tunables) { Batched(s).Some? && Charged(s, t) < t.fifoBatch }

  /** Reads are there and writes have not been starved enough. */
  predicate ReadTurn(s: State, t: Tunables) {
    |s.fifo.read| > 0 && !(|s.fifo.write| > 0 && s.starved >= t.writesStarved)
  }

  /** deadline_check_fifo */
  predicate HeadExpired(s: State, d: Dir, now: int)
    requires |At(s.fifo, d)| > 0
  {
    now > ExpiryOf(s.info, At(s.fifo, d)[0])
  }

  /** dispatch_find_request: the request for a direction, and the batch count before it. */
  function Select(s: State, d: Dir, batching: nat, now: int): (Rq, nat)
    requires |At(s.fifo, d)| > 0 && |At(s.tree, d)| > 0
  {
    if HeadExpired(s, d, now) then (At(s.fifo, d)[0], 0)
    else if At(s.next, d).Some? then (At(s.next, d).value, batching)
    else (At(s.tree, d)[0], 0)
  }

  predicate Busy(s: State) { |s.fifo.read| > 0 || |s.fifo.write| > 0 }

  /** What BUG_ON checks: a direction with requests in the FIFO has some in the tree. */
  predicate Choosable(s: State) {
    && (|s.fifo.read| > 0 ==> |s.tree.read| > 0)
    && (|s.fifo.write| > 0 ==> |s.tree.write| > 0)
  }

  /** The direction the next selection serves. */
  function Turn(s: State, t: Tunables): Dir { if ReadTurn(s, t) then Read else Write }

  /** The request the next call moves to the dispatch queue, and the batch count before it. */
  function Choice(s: State, t: Tunables, now: int): (Rq, nat)
    requires Busy(s) && Choosable(s)
  {
    if Entitled(s, t) then (Batched(s).value, Charged(s, t)) else Select(s, Turn(s, t), Charged(s, t), now)
  }

  /** The starvation count after a call. */
  function Starved(s: State, t: Tunables): nat {
    if Entitled(s, t) then s.starved
    else if ReadTurn(s, t) then (if |s.fifo.write| > 0 then s.starved + 1 else s.starved)
    else 0
  }

  /** deadline_dispatch_requests when something is queued. */
  function Dispatch(s: State, t: Tunables, now: int): State
    requires Busy(s) && Choosable(s)
  {
    var (r, b) := Choice(s, t, now);
    Move(s.(batching := b + 1, starved := Starved(s, t)), DirOf(s.info, r), r)
  }

  // ---------------------------------------------------------------- coherence

  ghost predicate TreeOk(tree: seq<Rq>, info: map<Rq, Info>, d: Dir) {
    Increasing(tree, Sectors(info)) && forall r :: r in tree ==> r in info && info[r].dir == d
  }

  /** The FIFO holds the requests of the tree and those of `out`, which are not in the tree. */
  ghost predicate Same(tree: seq<Rq>, fifo: seq<Rq>, out: set<Rq>) {
    NoDup(fifo) && (forall r :: r in fifo <==> r in tree || r in out) && (forall r :: r in out ==> r !in tree)
  }

  ghost predicate NextOk(tree: Two<seq<Rq>>, next: Two<Option<Rq>>, out: Two<set<Rq>>) {
    && (next.read.None? || next.write.None?)
    && (next.read.Some? ==> next.read.value in tree.read || next.read.value in out.read)
    && (next.write.Some? ==> next.write.value in tree.write || next.write.value in out.write)
  }

  /** No dispatched request is still queued. */
  ghost predicate Gone(queue: seq<Rq>, fifo: Two<seq<Rq>>, info: map<Rq, Info>) {
    NoDup(queue) && forall r :: r in queue ==> r in info && r !in fifo.read && r !in fifo.write
  }

  ghost predicate OutOk(out: set<Rq>, info: map<Rq, Info>, d: Dir) {
    forall r :: r in out ==> r in info && info[r].dir == d
  }

  ghost predicate Linked(s: State, out: Two<set<Rq>>) {
    && TreeOk(s.tree.read, s.info, Read) && TreeOk(s.tree.write, s.info, Write)
    && Same(s.tree.read, s.fifo.read, out.read) && Same(s.tree.write, s.fifo.write, out.write)
    && NextOk(s.tree, s.next, out)
    && Gone(s.queue, s.fifo, s.info)
    && OutOk(out.read, s.info, Read) && OutOk(out.write, s.info, Write)
  }

  /** How many requests are queued. */
  function Total(s: State): nat { |s.fifo.read| + |s.fifo.write| }

  ghost const NONE: Two<set<Rq>> := Two({}, {})

  /** Tree and FIFO hold the same requests, a next request is in its tree, and nr_sorted counts what is queued. */
  ghost predicate Coherent(s: State) { Linked(s, NONE) && s.sorted == Total(s) }

  lemma {:induction false} NextOfIn(tree: seq<Rq>, r: Rq)
    requires NoDup(tree)
    ensures var n := NextOf(tree, r); n.Some? ==> n.value in tree && n.value != r
  {
    if |tree| >= 2 && tree[0] != r {
      NextOfIn(tree[1..], r);
    }
  }

  lemma {:induction false} WithoutTree(tree: seq<Rq>, info: map<Rq, Info>, d: Dir, r: Rq)
    requires TreeOk(tree, info, d)
    ensures TreeOk(Without(tree, r), info, d) && r !in Without(tree, r) && NoDup(tree)
    ensures NextOf(tree, r).Some? ==> NextOf(tree, r).value in Without(tree, r)
  {
    WithoutIncreasing(tree, r, Sectors(info));
    WithoutMembers(tree, r);
    IncreasingNoDup(tree, Sectors(info));
    NextOfIn(tree, r);
  }

  lemma {:induction false} WithoutSame(tree: seq<Rq>, fifo: seq<Rq>, out: set<Rq>, r: Rq)
    requires Same(tree, fifo, out) && r in tree
    ensures Same(Without(tree, r), Without(fifo, r), out) && |Without(fifo, r)| == |fifo| - 1 && r in fifo
  {
    WithoutMembers(tree, r);
    WithoutMembers(fifo, r);
    WithoutNoDup(fifo, r);
  }

  lemma {:induction false} WithoutGone(queue: seq<Rq>, fifo: Two<seq<Rq>>, info: map<Rq, Info>, d: Dir, r: Rq)
    requires Gone(queue, fifo, info) && r in At(fifo, d) && r !in At(fifo, Other(d)) && r in info
    ensures Gone(queue + [r], With(fifo, d, Without(At(fifo, d), r)), info)
  {
    WithoutMembers(At(fifo, d), r);
    SnocNoDup(queue, r);
  }

  lemma {:induction false} FifoDir(s: State, out: Two<set<Rq>>, d: Dir, r: Rq)
    requires Linked(s, out) && r in At(s.fifo, d)
    ensures r in s.info && s.info[r].dir == d && r !in At(s.fifo, Other(d))
  {
  }

  /** Moving a queued request to the dispatch queue keeps everything in order. */
  lemma {:induction false} MoveKeeps(s: State, out: Two<set<Rq>>, d: Dir, r: Rq)
    requires Linked(s, out) && r in At(s.tree, d)
    ensures Linked(Move(s, d, r), out) && Move(s, d, r).sorted - Total(Move(s, d, r)) == s.sorted - Total(s)
  {
    FifoDir(s, out, d, r);
    WithoutTree(At(s.tree, d), s.info, d, r);
    WithoutSame(At(s.tree, d), At(s.fifo, d), At(out, d), r);
    WithoutGone(s.queue, s.fifo, s.info, d, r);
  }

  // ---------------------------------------------------------------- adding to the tree

  /** The state after an alias has been moved out of the way. */
  function Evicted(s: State, d: Dir, sector: nat): State {
    var alias := Alias(At(s.tree, d), s.info, sector);
    if alias.Some? then Move(s, d, alias.value) else s
  }

  lemma {:induction false} OneAlias(tree: seq<Rq>, info: map<Rq, Info>, d: Dir, a: Rq, sector: nat)
    requires TreeOk(tree, info, d) && a in tree && SectorOf(info, a) == sector
    ensures Alias(Without(tree, a), info, sector).None?
  {
    AliasIs(Without(tree, a), info, sector);
    WithoutMembers(tree, a);
    forall r | r in Without(tree, a) ensures SectorOf(info, r) != sector {
      var i :| 0 <= i < |tree| && tree[i] == r;
      var j :| 0 <= j < |tree| && tree[j] == a;
      assert Sectors(info)(tree[i]) == SectorOf(info, r) && Sectors(info)(tree[j]) == sector;
    }
  }

  /** Sectors are unique, so at most one alias is moved and then the request goes in. */
  lemma {:induction false} AddToTreeIs(s: State, out: Two<set<Rq>>, d: Dir, r: Rq)
    requires Linked(s, out)
    ensures var s1 := Evicted(s, d, SectorOf(s.info, r));
            && Linked(s1, out) && s1.sorted - Total(s1) == s.sorted - Total(s)
            && Alias(At(s1.tree, d), s1.info, SectorOf(s1.info, r)).None?
            && AddToTree(s, d, r) == s1.(tree := With(s1.tree, d, Insert(At(s1.tree, d), s1.info, r)))
  {
    var sector := SectorOf(s.info, r);
    var alias := Alias(At(s.tree, d), s.info, sector);
    AliasIs(At(s.tree, d), s.info, sector);
    if alias.Some? {
      MoveKeeps(s, out, d, alias.value);
      OneAlias(At(s.tree, d), s.info, d, alias.value, sector);
      WithoutShorter(At(s.tree, d), alias.value);
    }
  }

  lemma {:induction false} InsertMember(tree: seq<Rq>, info: map<Rq, Info>, r: Rq, x: Rq)
    ensures x in Insert(tree, info, r) <==> x == r || x in tree
  {
    if |tree| > 0 && SectorOf(info, r) >= SectorOf(info, tree[0]) {
      InsertMember(tree[1..], info, r, x);
    }
  }

  lemma {:induction false} InsertIncreasing(tree: seq<Rq>, info: map<Rq, Info>, r: Rq)
    requires Increasing(tree, Sectors(info)) && Alias(tree, info, SectorOf(info, r)).None?
    ensures Increasing(Insert(tree, info, r), Sectors(info))
  {
    if |tree| > 0 && SectorOf(info, r) >= SectorOf(info, tree[0]) {
      var rest := tree[1..];
      InsertIncreasing(rest, info, r);
      var t := Insert(rest, info, r);
      forall j | 0 <= j < |t| ensures Sectors(info)(tree[0]) < Sectors(info)(t[j]) {
        InsertMember(rest, info, r, t[j]);
        if t[j] != r {
          var k :| 0 <= k < |rest| && rest[k] == t[j];
          assert tree[k + 1] == t[j];
        }
      }
    } else {
      forall j | 0 <= j < |tree| ensures Sectors(info)(r) < Sectors(info)(tree[j]) {
        if j > 0 { assert Sectors(info)(tree[0]) < Sectors(info)(tree[j]); }
      }
    }
  }

  lemma {:induction false} InsertTree(tree: seq<Rq>, info: map<Rq, Info>, d: Dir, r: Rq)
    requires TreeOk(tree, info, d) && Alias(tree, info, SectorOf(info, r)).None? && r in info && info[r].dir == d
    ensures TreeOk(Insert(tree, info, r), info, d) && forall x :: x in Insert(tree, info, r) <==> x == r || x in tree
  {
    InsertIncreasing(tree, info, r);
    forall x ensures x in Insert(tree, info, r) <==> x == r || x in tree { InsertMember(tree, info, r, x); }
  }

  // ---------------------------------------------------------------- add

  lemma {:induction false} InfoKeepsTree(tree: seq<Rq>, info: map<Rq, Info>, info': map<Rq, Info>, d: Dir)
    requires TreeOk(tree, info, d)
    requires forall r :: r in tree ==> r in info' && info'[r].dir == info[r].dir && info'[r].sector == info[r].sector
    ensures TreeOk(tree, info', d)
  {
    forall i, j | 0 <= i < j < |tree| ensures Sectors(info')(tree[i]) < Sectors(info')(tree[j]) {
      assert Sectors(info)(tree[i]) < Sectors(info)(tree[j]);
      assert tree[i] in tree && tree[j] in tree;
    }
  }

  lemma {:induction false} SameAdd(tree: seq<Rq>, tree': seq<Rq>, fifo: seq<Rq>, r: Rq)
    requires Same(tree, fifo, {}) && r !in tree && forall x :: x in tree' <==> x == r || x in tree
    ensures Same(tree', fifo + [r], {})
  {
    SnocNoDup(fifo, r);
  }

  lemma {:induction false} RegisterKeeps(s: State, r: Rq, i: Info)
    requires Linked(s, NONE) && r !in s.info
    ensures Linked(Registered(s, r, i), NONE)
    ensures r !in s.tree.read && r !in s.tree.write && r !in s.fifo.read && r !in s.fifo.write && r !in s.queue
  {
    InfoKeepsTree(s.tree.read, s.info, s.info[r := i], Read);
    InfoKeepsTree(s.tree.write, s.info, s.info[r := i], Write);
  }

  lemma {:induction false} NextKeeps(tree: Two<seq<Rq>>, next: Two<Option<Rq>>, out: Two<set<Rq>>, d: Dir,
                                     bigger: seq<Rq>)
    requires NextOk(tree, next, out) && forall x :: x in At(tree, d) || x in At(out, d) ==> x in bigger
    requires At(out, Other(d)) == {}
    ensures NextOk(With(tree, d, bigger), next, NONE)
  {
  }

  lemma {:induction false} LinkIn(s: State, d: Dir, r: Rq)
    requires Linked(s, NONE) && r in s.info && s.info[r].dir == d
    requires Alias(At(s.tree, d), s.info, SectorOf(s.info, r)).None?
    requires r !in At(s.tree, d) && r !in s.fifo.read && r !in s.fifo.write && r !in s.queue
    ensures Linked(s.(tree := With(s.tree, d, Insert(At(s.tree, d), s.info, r)), fifo :=
                      With(s.fifo, d, At(s.fifo, d) + [r])), NONE)
  {
    InsertTree(At(s.tree, d), s.info, d, r);
    SameAdd(At(s.tree, d), Insert(At(s.tree, d), s.info, r), At(s.fifo, d), r);
    NextKeeps(s.tree, s.next, NONE, d, Insert(At(s.tree, d), s.info, r));
  }

  /** A request that was nowhere is still nowhere after an eviction. */
  lemma {:induction false} EvictedKeepsOut(s: State, d: Dir, sector: nat, r: Rq)
    requires r !in At(s.tree, d) && r !in s.fifo.read && r !in s.fifo.write && r !in s.queue
    ensures var s1 := Evicted(s, d, sector);
            r !in At(s1.tree, d) && r !in s1.fifo.read && r !in s1.fifo.write && r !in s1.queue
    ensures Evicted(s, d, sector).info == s.info
  {
    AliasIs(At(s.tree, d), s.info, sector);
    var alias := Alias(At(s.tree, d), s.info, sector);
    if alias.Some? {
      WithoutMember(At(s.tree, d), alias.value, r);
      WithoutMember(At(s.fifo, d), alias.value, r);
    }
  }

  lemma {:induction false} EnqueueKeeps(s: State, d: Dir, r: Rq)
    requires Linked(s, NONE) && r in s.info && s.info[r].dir == d && s.sorted == Total(s) + 1
    requires r !in At(s.tree, d) && r !in s.fifo.read && r !in s.fifo.write && r !in s.queue
    ensures Coherent(Enqueued(s, d, r))
  {
    AddToTreeIs(s, NONE, d, r);
    EvictedKeepsOut(s, d, SectorOf(s.info, r), r);
    LinkIn(Evicted(s, d, SectorOf(s.info, r)), d, r);
  }

  /** deadline_add_request keeps the scheduler coherent. */
  lemma {:induction false} AddKeeps(s: State, r: Rq, i: Info)
    requires Coherent(s) && r !in s.info
    ensures Coherent(Add(s, r, i))
  {
    RegisterKeeps(s, r, i);
    EnqueueKeeps(Registered(s, r, i), i.dir, r);
  }

  // ---------------------------------------------------------------- merges

  lemma {:induction false} BackMergeKeeps(s: State, r: Rq, n: nat)
    requires Coherent(s)
    ensures Coherent(BackMerge(s, r, n))
  {
    if r in s.info {
      var info := s.info[r := s.info[r].(size := s.info[r].size + n)];
      InfoKeepsTree(s.tree.read, s.info, info, Read);
      InfoKeepsTree(s.tree.write, s.info, info, Write);
    }
  }

  /** The only request outside its tree. */
  function Only(d: Dir, r: Rq): Two<set<Rq>> { With(Two({}, {}), d, {r}) }

  lemma {:induction false} SameTakeOut(tree: seq<Rq>, fifo: seq<Rq>, r: Rq)
    requires Same(tree, fifo, {}) && r in tree
    ensures Same(Without(tree, r), fifo, {r})
  {
    WithoutMembers(tree, r);
  }

  lemma {:induction false} SamePutBack(tree: seq<Rq>, tree': seq<Rq>, fifo: seq<Rq>, r: Rq)
    requires Same(tree, fifo, {r}) && forall x :: x in tree' <==> x == r || x in tree
    ensures Same(tree', fifo, {})
  {
  }

  lemma {:induction false} WithoutInfo(tree: seq<Rq>, info: map<Rq, Info>, info': map<Rq, Info>, d: Dir, r: Rq)
    requires TreeOk(tree, info, d)
    requires forall x :: x in info && x != r ==> x in info' && info'[x] == info[x]
    ensures TreeOk(Without(tree, r), info', d)
  {
    WithoutTree(tree, info, d, r);
    InfoKeepsTree(Without(tree, r), info, info', d);
  }

  lemma {:induction false} NextTakenOut(tree: Two<seq<Rq>>, next: Two<Option<Rq>>, d: Dir, r: Rq)
    requires NextOk(tree, next, NONE)
    ensures NextOk(With(tree, d, Without(At(tree, d), r)), next, Only(d, r))
  {
    WithoutMembers(At(tree, d), r);
  }

  lemma {:induction false} TakeOutKeeps(s: State, d: Dir, r: Rq, i: Info)
    requires Linked(s, NONE) && r in At(s.tree, d) && i.dir == d
    ensures Linked(TakenOut(s, d, r, i), Only(d, r))
  {
    var info := s.info[r := i];
    FifoDir(s, NONE, d, r);
    WithoutInfo(At(s.tree, d), s.info, info, d, r);
    InfoKeepsTree(At(s.tree, Other(d)), s.info, info, Other(d));
    SameTakeOut(At(s.tree, d), At(s.fifo, d), r);
    NextTakenOut(s.tree, s.next, d, r);
  }

  lemma {:induction false} PutBackKeeps(s: State, d: Dir, r: Rq)
    requires Linked(s, Only(d, r)) && Alias(At(s.tree, d), s.info, SectorOf(s.info, r)).None?
    ensures Linked(s.(tree := With(s.tree, d, Insert(At(s.tree, d), s.info, r))), NONE)
  {
    assert r in At(Only(d, r), d);
    InsertTree(At(s.tree, d), s.info, d, r);
    SamePutBack(At(s.tree, d), Insert(At(s.tree, d), s.info, r), At(s.fifo, d), r);
    NextKeeps(s.tree, s.next, Only(d, r), d, Insert(At(s.tree, d), s.info, r));
  }

  lemma {:induction false} RepositionKeeps(s: State, d: Dir, r: Rq, i: Info)
    requires Coherent(s) && r in At(s.tree, d) && i.dir == d
    ensures Coherent(AddToTree(TakenOut(s, d, r, i), d, r))
  {
    TakeOutKeeps(s, d, r, i);
    AddToTreeIs(TakenOut(s, d, r, i), Only(d, r), d, r);
    PutBackKeeps(Evicted(TakenOut(s, d, r, i), d, i.sector), d, r);
  }

  /** A front merge keeps the scheduler coherent, also when it runs into an alias. */
  lemma {:induction false} FrontMergeKeeps(s: State, r: Rq, n: nat)
    requires Coherent(s) && r in s.info && n <= s.info[r].sector && r in At(s.tree, s.info[r].dir)
    ensures Coherent(FrontMerge(s, r, n))
  {
    RepositionKeeps(s, s.info[r].dir, r, s.info[r].(sector := s.info[r].sector - n, size := s.info[r].size + n));
  }

  lemma {:induction false} PutAfterIs(s: seq<Rq>, y: Rq, x: Rq)
    requires NoDup(s) && y in s && x !in s
    ensures NoDup(PutAfter(s, y, x)) && |PutAfter(s, y, x)| == |s| + 1
    ensures forall z :: z in PutAfter(s, y, x) <==> z == x || z in s
  {
    if s[0] == y {
      assert PutAfter(s, y, x) == [y] + ([x] + s[1..]);
      ConsNoDup(x, s[1..]);
      ConsNoDup(y, [x] + s[1..]);
    } else {
      PutAfterIs(s[1..], y, x);
      assert s[0] !in s[1..];
      ConsNoDup(s[0], PutAfter(s[1..], y, x));
    }
    forall z ensures z in PutAfter(s, y, x) <==> z == x || z in s {
      assert z in s <==> z == s[0] || z in s[1..];
    }
  }

  lemma {:induction false} MergedFifoIs(fifo: seq<Rq>, info: map<Rq, Info>, r: Rq, n: Rq)
    requires NoDup(fifo) && r in fifo && n in fifo && r != n
    ensures NoDup(MergedFifo(fifo, info, r, n)) && |MergedFifo(fifo, info, r, n)| == |fifo| - 1
    ensures forall z :: z in MergedFifo(fifo, info, r, n) <==> z in fifo && z != n
  {
    if ExpiryOf(info, n) < ExpiryOf(info, r) {
      WithoutNoDup(fifo, r);
      WithoutMembers(fifo, r);
      PutAfterIs(Without(fifo, r), n, r);
      WithoutNoDup(PutAfter(Without(fifo, r), n, r), n);
      WithoutMembers(PutAfter(Without(fifo, r), n, r), n);
    } else {
      WithoutNoDup(fifo, n);
      WithoutMembers(fifo, n);
    }
  }

  lemma {:induction false} NextMerged(tree: Two<seq<Rq>>, next: Two<Option<Rq>>, d: Dir, n: Rq, info: map<Rq, Info>)
    requires NextOk(tree, next, NONE) && TreeOk(At(tree, d), info, d)
    ensures NextOk(With(tree, d, Without(At(tree, d), n)),
                   if At(next, d) == Some(n) then With(next, d, NextOf(At(tree, d), n)) else next, NONE)
  {
    WithoutTree(At(tree, d), info, d, n);
    WithoutMembers(At(tree, d), n);
  }

  lemma {:induction false} GoneFewer(queue: seq<Rq>, fifo: Two<seq<Rq>>, d: Dir, fewer: seq<Rq>, info: map<Rq, Info>,
                                     info': map<Rq, Info>)
    requires Gone(queue, fifo, info) && (forall x :: x in fewer ==> x in At(fifo, d)) && info.Keys <= info'.Keys
    ensures Gone(queue, With(fifo, d, fewer), info')
  {
  }

  lemma {:induction false} Assemble(s: State, s': State, d: Dir)
    requires s'.queue == s.queue && At(s'.tree, Other(d)) == At(s.tree, Other(d))
    requires At(s'.fifo, Other(d)) == At(s.fifo, Other(d))
    requires Same(At(s.tree, Other(d)), At(s.fifo, Other(d)), {}) && Same(At(s'.tree, d), At(s'.fifo, d), {})
    requires TreeOk(At(s'.tree, d), s'.info, d) && TreeOk(At(s'.tree, Other(d)), s'.info, Other(d))
    requires NextOk(s'.tree, s'.next, NONE) && Gone(s'.queue, s'.fifo, s'.info)
    ensures Linked(s', NONE)
  {
  }

  lemma {:induction false} SameMerged(tree: seq<Rq>, fifo: seq<Rq>, fifo': seq<Rq>, n: Rq)
    requires Same(tree, fifo, {}) && NoDup(fifo') && forall z :: z in fifo' <==> z in fifo && z != n
    ensures Same(Without(tree, n), fifo', {})
  {
    WithoutMembers(tree, n);
  }

  lemma {:induction false} TreesMerged(s: State, d: Dir, r: Rq, n: Rq, info': map<Rq, Info>)
    requires Linked(s, NONE) && info'.Keys == s.info.Keys
    requires forall x :: x in s.info ==> info'[x].dir == s.info[x].dir && info'[x].sector == s.info[x].sector
    ensures TreeOk(Without(At(s.tree, d), n), info', d) && TreeOk(At(s.tree, Other(d)), info', Other(d))
  {
    WithoutTree(At(s.tree, d), s.info, d, n);
    InfoKeepsTree(Without(At(s.tree, d), n), s.info, info', d);
    InfoKeepsTree(At(s.tree, Other(d)), s.info, info', Other(d));
  }

  /** Merging two requests of a direction keeps the scheduler coherent. */
  lemma {:induction false} MergeKeeps(s: State, d: Dir, r: Rq, n: Rq)
    requires Coherent(s) && r in At(s.tree, d) && n in At(s.tree, d) && r != n
    ensures Coherent(MergeRequests(s, r, n))
  {
    FifoDir(s, NONE, d, r);
    FifoDir(s, NONE, d, n);
    var s' := MergeRequests(s, r, n);
    TreesMerged(s, d, r, n, s'.info);
    MergedFifoIs(At(s.fifo, d), s.info, r, n);
    SameMerged(At(s.tree, d), At(s.fifo, d), At(s'.fifo, d), n);
    NextMerged(s.tree, s.next, d, n, s.info);
    GoneFewer(s.queue, s.fifo, d, At(s'.fifo, d), s.info, s'.info);
    Assemble(s, s', d);
  }

  // ---------------------------------------------------------------- dispatch

  lemma {:induction false} QueuedBoth(s: State, d: Dir)
    requires Linked(s, NONE)
    ensures |At(s.fifo, d)| > 0 <==> |At(s.tree, d)| > 0
  {
    if |At(s.fifo, d)| > 0 { assert At(s.fifo, d)[0] in At(s.tree, d); }
    if |At(s.tree, d)| > 0 { assert At(s.tree, d)[0] in At(s.fifo, d); }
  }

  /** What a dispatch can choose from is there. */
  lemma {:induction false} CanChoose(s: State)
    requires Linked(s, NONE)
    ensures Choosable(s)
  {
    QueuedBoth(s, Read);
    QueuedBoth(s, Write);
  }

  /** The chosen request is queued, in the tree of its direction. */
  lemma {:induction false} ChoiceQueued(s: State, t: Tunables, now: int)
    requires Linked(s, NONE) && Busy(s)
    ensures Choosable(s)
    ensures var r := Choice(s, t, now).0; r in s.info && r in At(s.tree, s.info[r].dir)
  {
    CanChoose(s);
    var r := Choice(s, t, now).0;
    if Entitled(s, t) {
    } else {
      var d := Turn(s, t);
      assert |At(s.fifo, d)| > 0;
      if HeadExpired(s, d, now) { assert At(s.fifo, d)[0] in At(s.tree, d); }
    }
  }

  lemma {:induction false} DispatchKeeps(s: State, t: Tunables, now: int)
    requires Coherent(s) && Busy(s)
    ensures Choosable(s)
    ensures Coherent(Dispatch(s, t, now)) && Total(Dispatch(s, t, now)) == Total(s) - 1
  {
    ChoiceQueued(s, t, now);
    var (r, b) := Choice(s, t, now);
    var s1 := s.(batching := b + 1, starved := Starved(s, t));
    assert Linked(s1, NONE);
    MoveKeeps(s1, NONE, s.info[r].dir, r);
  }

  // ---------------------------------------------------------------- runs

  datatype Op =
    | OpAdd(r: Rq, i: Info)
    | OpBack(r: Rq, n: nat)
    | OpFront(r: Rq, n: nat)
    | OpMerge(r: Rq, other: Rq)
    | OpDispatch

  ghost predicate Queued(s: State, r: Rq) { r in s.info && r in At(s.tree, s.info[r].dir) }

  /** New requests are new and expire the set time from now; merges are of queued requests. */
  ghost predicate Enabled(s: State, t: Tunables, op: Op, now: int) {
    match op
    case OpAdd(r, i) => r !in s.info && i.expiry == now + At(t.expire, i.dir)
    case OpBack(r, _) => Queued(s, r)
    case OpFront(r, n) => Queued(s, r) && n <= s.info[r].sector
    case OpMerge(r, n) => Queued(s, r) && Queued(s, n) && r != n && s.info[r].dir == s.info[n].dir
    case OpDispatch => true
  }

  ghost function Step(s: State, t: Tunables, op: Op, now: int): State {
    match op
    case OpAdd(r, i) => Add(s, r, i)
    case OpBack(r, n) => BackMerge(s, r, n)
    case OpFront(r, n) => FrontMerge(s, r, n)
    case OpMerge(r, n) => MergeRequests(s, r, n)
    case OpDispatch => if Busy(s) && Choosable(s) then Dispatch(s, t, now) else s
  }

  lemma {:induction false} StepKeeps(s: State, t: Tunables, op: Op, now: int)
    requires Coherent(s) && Enabled(s, t, op, now)
    ensures Coherent(Step(s, t, op, now))
  {
    match op
    case OpAdd(r, i) => AddKeeps(s, r, i);
    case OpBack(r, n) => BackMergeKeeps(s, r, n);
    case OpFront(r, n) => FrontMergeKeeps(s, r, n);
    case OpMerge(r, n) => MergeKeeps(s, s.info[r].dir, r, n);
    case OpDispatch => if Busy(s) { DispatchKeeps(s, t, now); }
  }

  datatype Event = Event(op: Op, now: int)

  /** The state before event i of a run. */
  ghost function StateAt(s: State, es: seq<Event>, t: Tunables, i: nat): State
    requires i <= |es|
  {
    if i == 0 then s else Step(StateAt(s, es, t, i - 1), t, es[i - 1].op, es[i - 1].now)
  }

  /** A run: every operation can happen where it happens, and time does not go back. */
  ghost predicate Run(s: State, es: seq<Event>, t: Tunables) {
    && (forall i {:trigger Enabled(StateAt(s, es, t, i), t, es[i].op, es[i].now)} ::
          0 <= i < |es| ==> Enabled(StateAt(s, es, t, i), t, es[i].op, es[i].now))
    && (forall i, j :: 0 <= i < j < |es| ==> es[i].now <= es[j].now)
  }

  lemma {:induction false} InitCoherent()
    ensures Coherent(Init())
  {
  }

  /** Every state of every run is coherent. */
  lemma {:induction false} AlwaysCoherent(s: State, es: seq<Event>, t: Tunables, i: nat)
    requires Coherent(s) && Run(s, es, t) && i <= |es|
    ensures Coherent(StateAt(s, es, t, i))
  {
    if i > 0 {
      AlwaysCoherent(s, es, t, i - 1);
      StepKeeps(StateAt(s, es, t, i - 1), t, es[i - 1].op, es[i - 1].now);
    }
  }

  /** In a coherent state nr_sorted tells whether a dispatch call finds something, and a call takes one request. */
  lemma {:induction false} DispatchTakesOne(s: State, t: Tunables, now: int)
    requires Coherent(s)
    ensures s.sorted == 0 <==> !Busy(s)
    ensures var s' := Step(s, t, OpDispatch, now);
            if Busy(s) then s'.sorted == s.sorted - 1 && exists r :: Queued(s, r) && s'.queue == s.queue + [r]
            else s' == s
  {
    CanChoose(s);
    if Busy(s) {
      DispatchKeeps(s, t, now);
      ChoiceQueued(s, t, now);
      assert Queued(s, Choice(s, t, now).0);
    }
  }

  // ---------------------------------------------------------------- elv_drain_elevator

  /** Dispatch calls until one finds nothing. */
  ghost function Drained(s: State, t: Tunables, now: int): State
    requires Coherent(s)
    decreases Total(s)
  {
    CanChoose(s);
    if Busy(s) then DispatchKeeps(s, t, now); Drained(Dispatch(s, t, now), t, now) else s
  }

  /** Draining ends with nothing queued: every queued request is in the dispatch queue, after what was there. */
  lemma {:induction false} DrainEmpties(s: State, t: Tunables, now: int)
    requires Coherent(s)
    ensures var s' := Drained(s, t, now);
            && Coherent(s') && s'.sorted == 0 && !Busy(s')
            && |s'.queue| == |s.queue| + s.sorted && s'.queue[..|s.queue|] == s.queue
            && forall r :: r in s'.queue <==> r in s.queue || r in s.fifo.read || r in s.fifo.write
    decreases Total(s)
  {
    CanChoose(s);
    if Busy(s) {
      DispatchKeeps(s, t, now);
      ChoiceQueued(s, t, now);
      var r := Choice(s, t, now).0;
      var s1 := Dispatch(s, t, now);
      DrainEmpties(s1, t, now);
      WithoutMembers(At(s.fifo, s.info[r].dir), r);
      assert s1.queue == s.queue + [r];
      assert Drained(s, t, now).queue[..|s.queue|] == Drained(s, t, now).queue[..|s1.queue|][..|s.queue|];
    }
  }
}
