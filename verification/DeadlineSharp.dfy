// The bound on how long writes wait is sharp where deadline-iosched.c exceeds it: for every setting of the tunables
// with batches of at least one request there is a run in which one dispatch call too many goes to a read.
module DeadlineSharp {
  import opened Lists
  import opened Directions
  import opened Deadline
  import opened DeadlineFair

  // ---------------------------------------------------------------- runs from the start, one event at a time

  /** The events lead from the start to s, passing over waiting writes, with so many dispatch calls, the last by
      `time`. */
  ghost predicate Reaches(es: seq<Event>, t: Tunables, s: State, calls: nat, time: int) {
    && Run(Init(), es, t) && Starving(Init(), es, t) && StateAt(Init(), es, t, |es|) == s && Calls(es, |es|) == calls
    && forall i :: 0 <= i < |es| ==> es[i].now <= time
  }

  lemma {:induction false} SameBefore(es: seq<Event>, e: Event, t: Tunables, i: nat)
    requires i <= |es|
    ensures StateAt(Init(), es + [e], t, i) == StateAt(Init(), es, t, i) && Calls(es + [e], i) == Calls(es, i)
  {
    if i > 0 { SameBefore(es, e, t, i - 1); }
  }

  lemma {:induction false} MoreAt(es: seq<Event>, t: Tunables, s: State, e: Event, i: nat)
    requires Run(Init(), es, t) && Starving(Init(), es, t) && StateAt(Init(), es, t, |es|) == s
    requires Enabled(s, t, e.op, e.now) && PassedOver(s, t, e) && i <= |es|
    ensures var x := (es + [e])[i];
            var q := StateAt(Init(), es + [e], t, i); Enabled(q, t, x.op, x.now) && PassedOver(q, t, x)
  {
    SameBefore(es, e, t, i);
    if i < |es| {
      assert Enabled(StateAt(Init(), es, t, i), t, es[i].op, es[i].now);
      assert PassedOver(StateAt(Init(), es, t, i), t, es[i]);
    }
  }

  lemma {:induction false} RunMore(es: seq<Event>, t: Tunables, s: State, e: Event, time: int)
    requires Run(Init(), es, t) && Starving(Init(), es, t) && StateAt(Init(), es, t, |es|) == s
    requires Enabled(s, t, e.op, e.now) && PassedOver(s, t, e) && time <= e.now && forall i ::
             0 <= i < |es| ==> es[i].now <= time
    ensures Run(Init(), es + [e], t) && Starving(Init(), es + [e], t)
  {
    var fs := es + [e];
    forall i | 0 <= i < |fs| ensures Enabled(StateAt(Init(), fs, t, i), t, fs[i].op, fs[i].now) {
      MoreAt(es, t, s, e, i);
    }
    forall i | 0 <= i < |fs| ensures PassedOver(StateAt(Init(), fs, t, i), t, fs[i]) {
      MoreAt(es, t, s, e, i);
    }
  }

  lemma {:induction false} StateMore(es: seq<Event>, t: Tunables, s: State, e: Event, n: nat)
    requires StateAt(Init(), es, t, |es|) == s && n == |es| + 1
    ensures StateAt(Init(), es + [e], t, n) == Step(s, t, e.op, e.now)
    ensures Calls(es + [e], n) == Calls(es, |es|) + Cost(e)
  {
    SameBefore(es, e, t, |es|);
  }

  lemma {:induction false} OneMore(es: seq<Event>, t: Tunables, s: State, calls: nat, time: int, e: Event)
    requires Reaches(es, t, s, calls, time) && Enabled(s, t, e.op, e.now) && PassedOver(s, t, e) && time <= e.now
    ensures Reaches(es + [e], t, Step(s, t, e.op, e.now), calls + Cost(e), e.now)
  {
    RunMore(es, t, s, e, time);
    StateMore(es, t, s, e, |es| + 1);
  }

  // ---------------------------------------------------------------- a row of reads

  function Range(a: nat, b: nat): (s: seq<nat>)
    ensures |s| == if a <= b then b - a else 0
    ensures forall i :: 0 <= i < |s| ==> s[i] == a + i
    decreases b - a
  {
    if a >= b then [] else [a] + Range(a + 1, b)
  }

  lemma {:induction false} RangeMore(a: nat, b: nat)
    requires a <= b
    ensures Range(a, b + 1) == Range(a, b) + [b]
  {
  }

  /** Request i reads sector i. */
  function ReadAt(sector: nat, expiry: int): Info { Info(Read, sector, 1, expiry) }

  ghost predicate Row(info: map<Rq, Info>, n: nat, expiry: int) {
    forall i: nat {:trigger i in info} {:trigger info[i]} :: i < n ==> i in info && info[i] == ReadAt(i, expiry)
  }

  /** The first n reads are queued. */
  function Rows(n: nat, info: map<Rq, Info>): State {
    State(Two(Range(0, n), []), Two(Range(0, n), []), Two(None, None), 0, 0, 0, info, [], n)
  }

  lemma {:induction false} NoAlias(tree: seq<Rq>, info: map<Rq, Info>, sector: nat)
    requires forall i :: 0 <= i < |tree| ==> SectorOf(info, tree[i]) != sector
    ensures Alias(tree, info, sector).None?
  {
    if |tree| > 0 { NoAlias(tree[1..], info, sector); }
  }

  lemma {:induction false} InsertLast(tree: seq<Rq>, info: map<Rq, Info>, r: Rq)
    requires forall i :: 0 <= i < |tree| ==> SectorOf(info, tree[i]) <= SectorOf(info, r)
    ensures Insert(tree, info, r) == tree + [r]
  {
    if |tree| > 0 {
      InsertLast(tree[1..], info, r);
      assert [tree[0]] + (tree[1..] + [r]) == tree + [r];
    }
  }

  lemma {:induction false} AddRead(n: nat, info: map<Rq, Info>, expiry: int)
    requires Row(info, n, expiry) && n !in info
    ensures Add(Rows(n, info), n, ReadAt(n, expiry)) == Rows(n + 1, info[n := ReadAt(n, expiry)])
    ensures Row(info[n := ReadAt(n, expiry)], n + 1, expiry)
  {
    var info' := info[n := ReadAt(n, expiry)];
    var tree := Range(0, n);
    forall i | 0 <= i < |tree| ensures SectorOf(info', tree[i]) < n {
      assert tree[i] in info';
    }
    NoAlias(tree, info', n);
    InsertLast(tree, info', n);
    RangeMore(0, n);
    AddPlain(Rows(n, info), n, ReadAt(n, expiry));
  }

  lemma {:induction false} AddReads(t: Tunables, n: nat) returns (es: seq<Event>, info: map<Rq, Info>)
    ensures Reaches(es, t, Rows(n, info), 0, 0) && Row(info, n, t.expire.read) && forall r :: r in info ==> r < n
  {
    es, info := [], map[];
    if n > 0 {
      es, info := AddReads(t, n - 1);
      var i := ReadAt(n - 1, t.expire.read);
      AddRead(n - 1, info, t.expire.read);
      var e := Event(OpAdd(n - 1, i), 0);
      OneMore(es, t, Rows(n - 1, info), 0, 0, e);
      es, info := es + [e], info[n - 1 := i];
    }
  }

  // ---------------------------------------------------------------- the alias and the write

  /** Reads 1 to j of n have been dispatched; read n + 1 is at sector 0, and write n + 2 waits. */
  function Waiting(n: nat, j: nat, batching: nat, starved: nat, info: map<Rq, Info>): State
    requires j <= n
  {
    State(Two([n + 1] + Range(j + 1, n + 1), [n + 2]), Two(Range(j + 1, n + 1) + [n + 1], [n + 2]),
          Two(if j < n then Some(j + 1) else None, None), batching, starved, j + 1, info, Range(0, j + 1), n + 2 - j)
  }

  /** The same before the write comes. */
  function Moved(n: nat, info: map<Rq, Info>): State
    requires n > 0
  {
    State(Two([n + 1] + Range(1, n + 1), []), Two(Range(1, n + 1) + [n + 1], []),
          Two(Some(1), None), 0, 0, 1, info, [0], n + 1)
  }

  lemma {:induction false} WithoutFirst(s: seq<Rq>, x: Rq)
    requires x !in s
    ensures Without([x] + s, x) == s
  {
    WithoutAbsent(s, x);
    assert ([x] + s)[1..] == s;
  }

  lemma {:induction false} EvictFirst(n: nat, info: map<Rq, Info>, expiry: int)
    requires n > 0 && Row(info, n + 1, expiry) && n + 1 in info && info[n + 1] == ReadAt(0, expiry)
    ensures var s := Rows(n + 1, info).(sorted := n + 2);
            Alias(s.tree.read, info, 0) == Some(0) &&
            Move(s, Read, 0) == State(Two(Range(1, n + 1), []), Two(Range(1, n + 1), []), Two(Some(1), None), 0, 0, 1,
                info, [0], n + 1)
  {
    var tree := Range(0, n + 1);
    assert tree == [0] + Range(1, n + 1);
    WithoutFirst(Range(1, n + 1), 0);
    assert 0 in info && 1 in info;
    assert tree[0] == 0 && tree[1] == 1;
    assert NextOf(tree, 0) == Some(1);
  }

  lemma {:induction false} AddAlias(n: nat, info: map<Rq, Info>, expiry: int)
    requires n > 0 && Row(info, n + 1, expiry) && n + 1 !in info
    ensures Add(Rows(n + 1, info), n + 1, ReadAt(0, expiry)) == Moved(n, info[n + 1 := ReadAt(0, expiry)])
  {
    var info' := info[n + 1 := ReadAt(0, expiry)];
    var s := Registered(Rows(n + 1, info), n + 1, ReadAt(0, expiry));
    assert s == Rows(n + 1, info').(sorted := n + 2);
    EvictFirst(n, info', expiry);
    var s1 := Move(s, Read, 0);
    var tree := Range(1, n + 1);
    forall i | 0 <= i < |tree| ensures SectorOf(info', tree[i]) > 0 {
      assert tree[i] in info';
    }
    NoAlias(tree, info', 0);
    assert Insert(tree, info', n + 1) == [n + 1] + tree;
    assert AddToTree(s, Read, n + 1) == AddToTree(s1, Read, n + 1);
    assert AddToTree(s1, Read, n + 1) == s1.(tree := Two([n + 1] + tree, []));
  }

  lemma {:induction false} AddWrite(n: nat, info: map<Rq, Info>, w: Info)
    requires n > 0 && n + 2 !in info && w.dir == Write
    ensures Add(Moved(n, info), n + 2, w) == Waiting(n, 0, 0, 0, info[n + 2 := w])
  {
    AddPlain(Moved(n, info), n + 2, w);
    assert Insert([], info[n + 2 := w], n + 2) == [n + 2];
    assert [] + [n + 2] == [n + 2];
    assert Range(0, 1) == [0];
  }

  lemma {:induction false} ToWaiting(t: Tunables, n: nat) returns (es: seq<Event>, info: map<Rq, Info>)
    requires n > 0
    ensures Reaches(es, t, Waiting(n, 0, 0, 0, info), 0, 0) && Row(info, n + 1, t.expire.read)
  {
    es, info := AddReads(t, n + 1);
    var a := ReadAt(0, t.expire.read);
    AddAlias(n, info, t.expire.read);
    var e := Event(OpAdd(n + 1, a), 0);
    OneMore(es, t, Rows(n + 1, info), 0, 0, e);
    es, info := es + [e], info[n + 1 := a];
    var w := Info(Write, 0, 1, t.expire.write);
    AddWrite(n, info, w);
    var e' := Event(OpAdd(n + 2, w), 0);
    OneMore(es, t, Moved(n, info), 0, 0, e');
    es, info := es + [e'], info[n + 2 := w];
  }

  // ---------------------------------------------------------------- dispatching the reads

  /** Taking read j + 1 out of the tree, the second entry, and out of the FIFO, the first. */
  lemma {:induction false} TakeOut(n: nat, j: nat, rest: seq<Rq>, tree: seq<Rq>, fifo: seq<Rq>, r: Rq)
    requires j < n && rest == Range(j + 2, n + 1) && r == j + 1
    requires tree == [n + 1] + Range(j + 1, n + 1) && fifo == Range(j + 1, n + 1) + [n + 1]
    ensures Without(tree, r) == [n + 1] + rest && Without(fifo, r) == rest + [n + 1]
    ensures NextOf(tree, r) == if j + 1 < n then Some(j + 2) else None
  {
    var tail: seq<Rq> := [r] + rest;
    assert Range(j + 1, n + 1) == tail;
    assert r !in rest + [n + 1];
    WithoutFirst(rest, r);
    assert fifo == [r] + (rest + [n + 1]);
    WithoutFirst(rest + [n + 1], r);
    assert tree[1..] == tail && tree[0] == n + 1 != r;
    assert Without(tree, r) == [tree[0]] + Without(tree[1..], r);
    assert NextOf(tree, r) == NextOf(tree[1..], r);
    assert tail[0] == r && (j + 1 < n ==> tail[1] == j + 2);
  }

  lemma {:induction false} TakeRead(n: nat, j: nat, info: map<Rq, Info>, expiry: int, s: State)
    requires j < n && Row(info, n + 1, expiry)
    requires s == Waiting(n, j, s.batching, s.starved, info)
    ensures Move(s, Read, j + 1) == Waiting(n, j + 1, s.batching, s.starved, info)
  {
    TakeOut(n, j, Range(j + 2, n + 1), s.tree.read, s.fifo.read, j + 1);
    RangeMore(0, j + 1);
    assert j + 1 in info && info[j + 1] == ReadAt(j + 1, expiry);
    assert EndOf(info, j + 1) == j + 2;
  }

  /** A call goes on with the batch, or starts a new one with the read whose time is over. */
  lemma {:induction false} DispatchRead(t: Tunables, n: nat, j: nat, b: nat, v: nat, info: map<Rq, Info>, now: int)
    requires j < n && Row(info, n + 1, t.expire.read) && now > t.expire.read
    requires b < t.fifoBatch || (b == t.fifoBatch && v < t.writesStarved)
    ensures var s := Waiting(n, j, b, v, info);
            && Busy(s) && Choosable(s) && Serves(s, t, now) == Read
            && Dispatch(s, t, now) ==
               if b < t.fifoBatch then Waiting(n, j + 1, b + 1, v, info) else Waiting(n, j + 1, 1, v + 1, info)
  {
    var s := Waiting(n, j, b, v, info);
    assert j + 1 in info && info[j + 1] == ReadAt(j + 1, t.expire.read);
    assert s.fifo.read[0] == j + 1;
    assert Charged(s, t) == b;
    TakeRead(n, j, info, t.expire.read,
             Waiting(n, j, if b < t.fifoBatch then b + 1 else 1, if b < t.fifoBatch then v else v + 1, info));
    assert Choice(s, t, now) == if b < t.fifoBatch then (j + 1, b) else (j + 1, 0);
  }

  lemma {:induction false} TimesMonotone(a: nat, b: nat, c: nat)
    ensures a <= b ==> a * c <= b * c
  {
    if a <= b { assert b * c == a * c + (b - a) * c; }
  }

  lemma {:induction false} BatchesLeft(fb: nat, ws: nat, j: nat, b: nat, v: nat)
    requires fb > 0 && j == v * fb + b && b <= fb && j < (ws + 1) * fb
    ensures b < fb || v < ws
  {
    TimesMonotone(ws, v, fb);
    assert (ws + 1) * fb == ws * fb + fb;
  }

  lemma {:induction false} NextCounts(fb: nat, j: nat, b: nat, v: nat)
    requires fb > 0 && j == v * fb + b && b <= fb
    ensures b < fb ==> j + 1 == v * fb + (b + 1)
    ensures b == fb ==> j + 1 == (v + 1) * fb + 1
  {
    assert (v + 1) * fb == v * fb + fb;
  }

  lemma {:induction false} OneRead(t: Tunables, n: nat, j: nat, b: nat, v: nat, info: map<Rq, Info>, now: int,
                                   es: seq<Event>)
      returns (b': nat, v': nat)
    requires j < n && Row(info, n + 1, t.expire.read) && now > t.expire.read && t.fifoBatch > 0
    requires b < t.fifoBatch || (b == t.fifoBatch && v < t.writesStarved)
    requires Reaches(es, t, Waiting(n, j, b, v, info), j, now) && j == v * t.fifoBatch + b
    ensures Reaches(es + [Event(OpDispatch, now)], t, Waiting(n, j + 1, b', v', info), j + 1, now)
    ensures j + 1 == v' * t.fifoBatch + b' && b' <= t.fifoBatch
  {
    DispatchRead(t, n, j, b, v, info, now);
    OneMore(es, t, Waiting(n, j, b, v, info), j, now, Event(OpDispatch, now));
    NextCounts(t.fifoBatch, j, b, v);
    b', v' := if b < t.fifoBatch then b + 1 else 1, if b < t.fifoBatch then v else v + 1;
  }

  lemma {:induction false} Reads(t: Tunables, n: nat, j: nat, now: int)
      returns (es: seq<Event>, b: nat, v: nat, info: map<Rq, Info>)
    requires t.fifoBatch > 0 && n == (t.writesStarved + 1) * t.fifoBatch && j <= n && n > 0 && now > t.expire.read
    ensures Row(info, n + 1, t.expire.read) && j == v * t.fifoBatch + b && b <= t.fifoBatch
    ensures Reaches(es, t, Waiting(n, j, b, v, info), j, now)
  {
    if j == 0 {
      es, info := ToWaiting(t, n);
      b, v := 0, 0;
    } else {
      es, b, v, info := Reads(t, n, j - 1, now);
      BatchesLeft(t.fifoBatch, t.writesStarved, j - 1, b, v);
      b, v := OneRead(t, n, j - 1, b, v, info, now, es);
      es := es + [Event(OpDispatch, now)];
    }
  }

  /**
   * For every setting with batches of at least one request, reads in a row, an alias and a write lead to a state in
   * which the bound of WritesWaitLess is exceeded: every one of BatchBound + 1 calls finds the write waiting and
   * dispatches a read.
   */
  lemma {:induction false} OneTooMany(t: Tunables) returns (es: seq<Event>)
    requires t.fifoBatch > 0
    ensures Run(Init(), es, t) && Starving(Init(), es, t) && Calls(es, |es|) == BatchBound(t) + 1
  {
    var n := (t.writesStarved + 1) * t.fifoBatch;
    assert n == t.writesStarved * t.fifoBatch + t.fifoBatch;
    var b, v, info;
    es, b, v, info := Reads(t, n, n, t.expire.read + 1);
  }
}
