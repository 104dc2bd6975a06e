// The ordered-write (barrier) protocol of the block layer in drain mode: ll_rw_blk.c's ordered-sequence functions
// together with the insert, requeue, dequeue and completion paths of elevator.c that they rely on.
module Barrier {

  // ---------------------------------------------------------------- bits and requests

  const STARTED: bv8 := 0x01
  const DRAIN: bv8 := 0x02
  const PREFLUSH: bv8 := 0x04
  const BAR: bv8 := 0x08
  const POSTFLUSH: bv8 := 0x10
  const DONE: bv8 := 0x20

  const EOPNOTSUPP: int := 95

  /** The lowest clear bit of `x`: `1 << ffz(x)`. */
  function LowestClear(x: bv8): bv8 {
    if x & 0x01 == 0 then 0x01
    else if x & 0x02 == 0 then 0x02
    else if x & 0x04 == 0 then 0x04
    else if x & 0x08 == 0 then 0x08
    else if x & 0x10 == 0 then 0x10
    else if x & 0x20 == 0 then 0x20
    else if x & 0x40 == 0 then 0x40
    else 0x80
  }

  /** A request the dispatch queue can hold: a file-system request, named by its submission
      number, or one of the three requests embedded in the queue itself. */
  datatype Rq = Fs(id: nat) | Pre | Bar | Post

  /** What `__elv_add_request` fixes about a file-system request. */
  datatype Info = Info(color: bool, barrier: bool)

  /** QUEUE_ORDERED_NONE, _DRAIN, _DRAIN_FLUSH, _DRAIN_FUA. */
  datatype Mode = NoneMode | Drain | DrainFlush | DrainFua {
    predicate PreFlush() { DrainFlush? || DrainFua? }
    predicate PostFlush() { DrainFlush? }
  }

  // ---------------------------------------------------------------- what an observer sees

  /** A request as the outside names it: flushes and proxies belong to a barrier. */
  datatype Item = FsReq(id: nat) | PreOf(b: nat) | BarOf(b: nat) | PostOf(b: nat)

  datatype Event =
    | Submit(id: nat, barrier: bool)          // __elv_add_request
    | Begin(b: nat, pre: bool, post: bool)    // start_ordered on barrier b
    | Issue(item: Item)                       // elv_next_request first hands it to the driver
    | Requeue(item: Item)                     // the driver gives it back
    | Error(item: Item, err: int)             // completed with an error
    | Finish(item: Item)                      // completed
    | Report(b: nat, err: int)                // bios of the original barrier ended with err
    | End(b: nat)                             // the original barrier request ended

  /** Every file-system request submitted before number `b` has completed. */
  ghost predicate AllBefore(past: seq<Event>, b: nat) {
    forall id: nat {:trigger FsReq(id)} :: id < b ==> Finish(FsReq(id)) in past || End(id) in past
  }

  /** The error kept for barrier `b`: the first one any of its steps reported. */
  ghost function FirstError(past: seq<Event>, b: nat): int {
    if past == [] then 0
    else
      var before := FirstError(past[..|past| - 1], b);
      match past[|past| - 1]
      case Error(item, e) =>
        if before == 0 && (item == PreOf(b) || item == BarOf(b) || item == PostOf(b)) then e else before
      case _ => before
  }

  /** Whether `e` may happen after `past`. */
  ghost predicate SafeEvent(past: seq<Event>, e: Event) {
    match e
    case Issue(FsReq(id)) =>
      forall b: nat :: b < id && Submit(b, true) in past ==> End(b) in past
    case Issue(PreOf(b)) =>
      AllBefore(past, b)
    case Issue(BarOf(b)) =>
      && AllBefore(past, b)
      && (forall post :: Begin(b, true, post) in past ==> Finish(PreOf(b)) in past)
    case Issue(PostOf(b)) =>
      AllBefore(past, b) && Finish(BarOf(b)) in past
    case Report(b, err) =>
      && End(b) !in past
      && (forall pre, post :: Begin(b, pre, post) in past ==>
            && AllBefore(past, b)
            && Finish(BarOf(b)) in past
            && (pre ==> Finish(PreOf(b)) in past)
            && (post ==> Finish(PostOf(b)) in past)
            && err == FirstError(past, b))
      && ((forall pre, post :: Begin(b, pre, post) !in past) ==> err == -EOPNOTSUPP)
    case End(b) =>
      End(b) !in past && exists err :: Report(b, err) in past
    case _ => true
  }

  ghost predicate Safe(trace: seq<Event>) {
    forall k :: 0 <= k < |trace| ==> SafeEvent(trace[..k], trace[k])
  }

  lemma {:induction false} SafeExtends(trace: seq<Event>, e: Event)
    requires Safe(trace) && SafeEvent(trace, e)
    ensures Safe(trace + [e])
  {
    var t := trace + [e];
    forall k | 0 <= k < |t| ensures SafeEvent(t[..k], t[k]) {
      assert t[..k] == trace[..k];
      if k == |trace| { assert trace[..k] == trace; }
    }
  }

  // ---------------------------------------------------------------- the queue

  /** Where a request is: in the I/O scheduler, on queue_head, with the driver, set aside as
      orig_bar_rq, or over. */
  datatype Place = Nowhere | Sched | Queued | Driver | Held | Over

  datatype Queue = Queue(
    info: seq<Info>,          // every fs request submitted, in submission order
    place: map<Rq, Place>,
    head: seq<Rq>,            // queue_head
    started: set<Rq>,         // REQ_STARTED
    soft: set<Rq>,            // REQ_SOFTBARRIER
    inFlight: int,
    ordseq: bv8,
    ordcolor: bool,
    orig: nat,                // orig_bar_rq, meaningful while ordseq != 0
    mode: Mode,               // next_ordered
    orderr: int,
    pre: bool,                // whether this sequence has a pre-flush,
    post: bool,               // and a post-flush
    trace: seq<Event>)

  function Init(m: Mode): Queue {
    Queue([], map[], [], {}, {}, 0, 0, false, 0, m, 0, false, false, [])
  }

  function At(place: map<Rq, Place>, r: Rq): Place {
    if r in place then place[r] else Nowhere
  }

  predicate IsFs(r: Rq) { r.Fs? || r.Bar? }

  function ItemOf(orig: nat, r: Rq): Item {
    match r
    case Fs(id) => FsReq(id)
    case Pre => PreOf(orig)
    case Bar => BarOf(orig)
    case Post => PostOf(orig)
  }

  /** blk_ordered_cur_seq */
  function CurSeq(ordseq: bv8): bv8 {
    if ordseq == 0 then 0 else LowestClear(ordseq)
  }

  /** blk_ordered_req_seq */
  function ReqSeq(info: seq<Info>, orig: nat, r: Rq): bv8 {
    match r
    case Pre => PREFLUSH
    case Bar => BAR
    case Post => POSTFLUSH
    case Fs(id) =>
      if id < |info| && orig < |info| && info[id].color == info[orig].color then DRAIN else DONE
  }

  predicate IsBarrier(info: seq<Info>, r: Rq) {
    r.Fs? && r.id < |info| && info[r.id].barrier
  }

  /** A request that elv_dispatch_sort never inserts in front of. */
  predicate Fence(q: Queue, r: Rq) {
    r in q.soft || r in q.started || !r.Fs? || IsBarrier(q.info, r)
  }

  function Log(q: Queue, e: Event): Queue { q.(trace := q.trace + [e]) }

  function Insert(s: seq<Rq>, k: nat, r: Rq): seq<Rq>
    requires k <= |s|
  {
    s[..k] + [r] + s[k..]
  }

  function RemoveAt(s: seq<Rq>, k: nat): seq<Rq>
    requires k < |s|
  {
    s[..k] + s[k + 1..]
  }

  // ---------------------------------------------------------------- the steps

  /** A sorted insertion: the I/O scheduler takes the request. */
  function SubmitSort(q: Queue): Queue {
    var id := |q.info|;
    Log(q.(info := q.info + [Info(q.ordcolor, false)], place := q.place[Fs(id) := Sched]), Submit(id, false))
  }

  /** A back insertion, after the scheduler has been drained. */
  function SubmitBack(q: Queue, barrier: bool): Queue {
    var id := |q.info|;
    Log(q.(info := q.info + [Info(q.ordcolor, barrier)],
           ordcolor := if barrier then !q.ordcolor else q.ordcolor,
           soft := q.soft + {Fs(id)},
           place := q.place[Fs(id) := Queued],
           head := q.head + [Fs(id)]), Submit(id, barrier))
  }

  /** The scheduler moves a request into the dispatch queue, in front of no fence. */
  function Dispatch(q: Queue, id: nat, k: nat): Queue
    requires k <= |q.head|
  {
    q.(place := q.place[Fs(id) := Queued], head := Insert(q.head, k, Fs(id)))
  }

  /** elv_insert at the front, for a request embedded in the queue */
  function PushFront(q: Queue, r: Rq): Queue {
    q.(place := q.place[r := Queued], started := q.started - {r}, soft := q.soft + {r}, head := [r] + q.head)
  }

  /** The barrier at the head is set aside as orig_bar_rq. */
  function SetAside(q: Queue): Queue
    requires |q.head| > 0 && q.head[0].Fs?
  {
    var b := q.head[0].id;
    q.(orderr := 0, ordseq := STARTED, orig := b, pre := q.mode.PreFlush(), post := q.mode.PostFlush(),
       place := q.place[Fs(b) := Held], head := q.head[1..])
  }

  function SeqBit(r: Rq): bv8 {
    match r case Fs(_) => DRAIN case Pre => PREFLUSH case Bar => BAR case Post => POSTFLUSH
  }

  /** A flush is queued if the sequence has it, and counts as done if not. */
  function AddFlush(q: Queue, r: Rq, wanted: bool): Queue {
    if wanted then PushFront(q, r) else q.(ordseq := q.ordseq | SeqBit(r))
  }

  /** The sequence is stacked on the queue, last step first. */
  function StackSequence(q: Queue): Queue {
    var q1 := AddFlush(PushFront(AddFlush(q, Post, q.post), Bar), Pre, q.pre);
    if q.inFlight == 0 then q1.(ordseq := q1.ordseq | DRAIN) else q1
  }

  /** start_ordered */
  function StartOrdered(q: Queue): Queue
    requires |q.head| > 0 && q.head[0].Fs?
  {
    var q1 := SetAside(q);
    Log(StackSequence(q1), Begin(q1.orig, q1.pre, q1.post))
  }

  /** The barrier at the head is refused: the queue no longer supports ordering. */
  function Reject(q: Queue): Queue
    requires |q.head| > 0 && q.head[0].Fs?
  {
    var b := q.head[0].id;
    Log(Log(q.(head := q.head[1..], place := q.place[Fs(b) := Over]), Report(b, -EOPNOTSUPP)), End(b))
  }

  /** Whether blk_do_ordered leaves the request at the head in *rqp. */
  predicate Offered(q: Queue)
    requires |q.head| > 0
  {
    if q.ordseq == 0 then !IsBarrier(q.info, q.head[0])
    else ReqSeq(q.info, q.orig, q.head[0]) <= CurSeq(q.ordseq)
  }

  /** The driver is handed the request at the head. */
  function IssueHead(q: Queue): Queue
    requires |q.head| > 0
  {
    var r := q.head[0];
    if r in q.started then q else Log(q.(started := q.started + {r}), Issue(ItemOf(q.orig, r)))
  }

  /** elv_dequeue_request on the request at position `k` */
  function Dequeue(q: Queue, k: nat): Queue
    requires k < |q.head|
  {
    var r := q.head[k];
    q.(head := RemoveAt(q.head, k), place := q.place[r := Driver],
       inFlight := if IsFs(r) then q.inFlight + 1 else q.inFlight)
  }

  /** Where elv_insert puts a requeued request: before the first entry from `k` on whose
      place in the ordered sequence is not earlier than `seqno`. */
  function RequeuePos(q: Queue, seqno: bv8, k: nat): (p: nat)
    requires k <= |q.head|
    ensures k <= p <= |q.head|
    decreases |q.head| - k
  {
    if k == |q.head| || seqno <= ReqSeq(q.info, q.orig, q.head[k]) then k else RequeuePos(q, seqno, k + 1)
  }

  /** elv_requeue_request */
  function RequeueRq(q: Queue, r: Rq): Queue {
    var p := if q.ordseq == 0 then 0 else RequeuePos(q, ReqSeq(q.info, q.orig, r), 0);
    Log(q.(place := q.place[r := Queued],
           started := q.started - {r},
           soft := q.soft + {r},
           inFlight := if IsFs(r) then q.inFlight - 1 else q.inFlight,
           head := Insert(q.head, p, r)), Requeue(ItemOf(q.orig, r)))
  }

  /** A step of the sequence is over, with error `err` or 0. */
  function Recorded(q: Queue, bit: bv8, err: int): Queue {
    q.(orderr := if err != 0 && q.orderr == 0 then err else q.orderr, ordseq := q.ordseq | bit)
  }

  /** The whole sequence is over: the original barrier ends. */
  function Ended(q: Queue): Queue {
    Log(Log(q.(ordseq := 0, place := q.place[Fs(q.orig) := Over]), Report(q.orig, q.orderr)), End(q.orig))
  }

  /** blk_ordered_complete_seq */
  function CompleteSeq(q: Queue, bit: bv8, err: int): Queue {
    var q1 := Recorded(q, bit, err);
    if CurSeq(q1.ordseq) != DONE then q1 else Ended(q1)
  }

  /** elv_completed_request's look at a sequence that waits for the drain. */
  function DrainCheck(q: Queue): Queue {
    if && q.ordseq != 0 && q.inFlight == 0 && CurSeq(q.ordseq) == DRAIN
       && |q.head| > 0 && ReqSeq(q.info, q.orig, q.head[0]) > DRAIN
    then CompleteSeq(q, DRAIN, 0)
    else q
  }

  /** What completing `r` does before the sequence is looked at. */
  function Released(q: Queue, r: Rq, err: int): Queue {
    var item := ItemOf(q.orig, r);
    var q1 := if err != 0 then Log(q, Error(item, err)) else q;
    Log(q1.(place := q.place[r := if r.Fs? then Over else Nowhere], started := q.started - {r},
            inFlight := if IsFs(r) then q.inFlight - 1 else q.inFlight), Finish(item))
  }

  /** The driver completes `r`, with error `err` or 0. */
  function Complete(q: Queue, r: Rq, err: int): Queue {
    var q1 := DrainCheck(Released(q, r, err));
    if r.Fs? then q1 else CompleteSeq(q1, SeqBit(r), err)
  }

  // ---------------------------------------------------------------- runs

  datatype Action =
    | DoSubmitSort
    | DoSubmitBack(barrier: bool)
    | DoDispatch(id: nat, k: nat)
    | DoStart
    | DoReject
    | DoIssue
    | DoDequeue(k: nat)
    | DoRequeue(r: Rq)
    | DoComplete(r: Rq, err: int)
    | DoMode(m: Mode)

  /** What the block layer and a driver that obeys its interface may do next. */
  ghost predicate Enabled(q: Queue, a: Action) {
    match a
    case DoSubmitSort => true
    case DoSubmitBack(_) => forall r :: At(q.place, r) != Sched
    case DoDispatch(id, k) =>
      At(q.place, Fs(id)) == Sched && k <= |q.head| && forall i :: k <= i < |q.head| ==> !Fence(q, q.head[i])
    case DoStart => |q.head| > 0 && q.ordseq == 0 && IsBarrier(q.info, q.head[0]) && !q.mode.NoneMode?
    case DoReject => |q.head| > 0 && q.ordseq == 0 && IsBarrier(q.info, q.head[0]) && q.mode.NoneMode?
    case DoIssue => |q.head| > 0 && Offered(q)
    case DoDequeue(k) => k < |q.head| && q.head[k] in q.started
    case DoRequeue(r) => At(q.place, r) == Driver
    case DoComplete(r, _) => At(q.place, r) == Driver
    case DoMode(_) => true
  }

  ghost function Step(q: Queue, a: Action): Queue
    requires Enabled(q, a)
  {
    match a
    case DoSubmitSort => SubmitSort(q)
    case DoSubmitBack(barrier) => SubmitBack(q, barrier)
    case DoDispatch(id, k) => Dispatch(q, id, k)
    case DoStart => StartOrdered(q)
    case DoReject => Reject(q)
    case DoIssue => IssueHead(q)
    case DoDequeue(k) => Dequeue(q, k)
    case DoRequeue(r) => RequeueRq(q, r)
    case DoComplete(r, err) => Complete(q, r, err)
    case DoMode(m) => q.(mode := m)
  }

  // ---------------------------------------------------------------- the invariant

  ghost predicate Domain(info: seq<Info>, place: map<Rq, Place>) {
    && (forall id: nat {:trigger At(place, Fs(id))} :: At(place, Fs(id)) == Nowhere <==> id >= |info|)
    && (forall r :: At(place, r) == Held ==> IsBarrier(info, r))
  }

  /** queue_head lists exactly the queued requests, each once. */
  ghost predicate HeadOk(head: seq<Rq>, place: map<Rq, Place>) {
    && (forall i :: 0 <= i < |head| ==> At(place, head[i]) == Queued)
    && (forall i, j :: 0 <= i < j < |head| ==> head[i] != head[j])
    && (forall r :: At(place, r) == Queued ==> r in head)
  }

  /** The colour of a request flips exactly after each barrier. */
  ghost predicate Colors(info: seq<Info>, ordcolor: bool) {
    && (forall i :: 0 < i < |info| ==> info[i].color == (info[i - 1].color != info[i - 1].barrier))
    && (|info| > 0 ==> ordcolor == (info[|info| - 1].color != info[|info| - 1].barrier))
  }

  /** A barrier separates what was submitted before it from what was submitted after it. */
  ghost predicate Separated(info: seq<Info>, place: map<Rq, Place>, c: nat, x: nat)
    requires c < |info|
  {
    var pc, px := At(place, Fs(c)), At(place, Fs(x));
    && (pc == Queued || pc == Held || pc == Over)
    && (x < c ==> px != Sched)
    && (x < c && pc == Held ==> px != Held)
    && (c < x < |info| && pc != Over ==> px == Queued || px == Sched)
  }

  ghost predicate Barriers(info: seq<Info>, place: map<Rq, Place>) {
    forall c: nat, x: nat {:trigger info[c], At(place, Fs(x))} ::
      c < |info| && info[c].barrier ==> Separated(info, place, c, x)
  }

  ghost predicate HeadOrder(info: seq<Info>, head: seq<Rq>) {
    forall i, j :: 0 <= i < j < |head| && head[i].Fs? && head[j].Fs? ==>
      (IsBarrier(info, head[i]) || IsBarrier(info, head[j]) ==> head[i].id < head[j].id)
  }

  ghost predicate StartedOk(info: seq<Info>, place: map<Rq, Place>, started: set<Rq>) {
    && (forall r :: r in started ==> At(place, r) == Queued || At(place, r) == Driver)
    && (forall r :: At(place, r) == Driver ==> r in started)
    && (forall c: nat, x: nat {:trigger info[c], Fs(x)} ::
          c < |info| && info[c].barrier && At(place, Fs(c)) != Over && c <= x ==> Fs(x) !in started)
  }

  ghost function InDriver(place: map<Rq, Place>): set<Rq> {
    set r | r in place && place[r] == Driver && IsFs(r)
  }

  /** The order in which requests leave the queue while a sequence is in progress. */
  function Rank(orig: nat, r: Rq): nat {
    match r
    case Fs(id) => if id < orig then 1 else 5
    case Pre => 2
    case Bar => 3
    case Post => 4
  }

  ghost predicate Ranks(head: seq<Rq>, orig: nat, soft: set<Rq>) {
    && (forall i, j :: 0 <= i < j < |head| ==> Rank(orig, head[i]) <= Rank(orig, head[j]))
    && (forall i :: 0 <= i < |head| && Rank(orig, head[i]) == 1 ==> head[i] in soft)
  }

  /** The earlier requests on the queue are of the barrier's colour. */
  ghost predicate Hues(info: seq<Info>, head: seq<Rq>, orig: nat) {
    forall i :: 0 <= i < |head| && Rank(orig, head[i]) == 1 ==> ReqSeq(info, orig, head[i]) == DRAIN
  }

  ghost predicate Proxies(place: map<Rq, Place>) {
    forall r: Rq :: !r.Fs? ==> At(place, r) == Nowhere || At(place, r) == Queued || At(place, r) == Driver
  }

  /** How far the sequence has got. */
  ghost predicate Bits(s: bv8, pre: bool, post: bool, place: map<Rq, Place>, started: set<Rq>) {
    && s & STARTED != 0
    && s & 0xE0 == 0
    && s != 0x1F
    && (!pre ==> s & PREFLUSH != 0)
    && (!post ==> s & POSTFLUSH != 0)
    && (At(place, Pre) == Nowhere <==> s & PREFLUSH != 0)
    && (At(place, Bar) == Nowhere <==> s & BAR != 0)
    && (At(place, Post) == Nowhere <==> s & POSTFLUSH != 0)
    && (Pre in started ==> s & DRAIN != 0)
    && (Bar in started ==> s & DRAIN != 0 && s & PREFLUSH != 0)
    && (Post in started ==> s & DRAIN != 0 && s & PREFLUSH != 0 && s & BAR != 0)
    && (s & BAR != 0 ==> s & DRAIN != 0 && s & PREFLUSH != 0)
    && (post && s & POSTFLUSH != 0 ==> s & BAR != 0)
    && (pre && s & PREFLUSH != 0 ==> s & DRAIN != 0)
  }

  ghost predicate Drained(orig: nat, place: map<Rq, Place>) {
    forall x: nat {:trigger At(place, Fs(x))} :: x < orig ==> At(place, Fs(x)) == Over
  }

  /** While the drain is awaited there is something left to complete. */
  ghost predicate Draining(q: Queue) {
    if q.ordseq & DRAIN != 0 then Drained(q.orig, q.place)
    else q.inFlight > 0 || (|q.head| > 0 && Rank(q.orig, q.head[0]) == 1)
  }

  ghost predicate Sequence(q: Queue) {
    if q.ordseq == 0 then
      forall r :: At(q.place, r) != Nowhere ==> r.Fs? && At(q.place, r) != Held
    else
      && At(q.place, Fs(q.orig)) == Held
      && Bits(q.ordseq, q.pre, q.post, q.place, q.started)
      && Ranks(q.head, q.orig, q.soft)
      && Hues(q.info, q.head, q.orig)
      && Draining(q)
  }

  ghost predicate Structure(q: Queue) {
    && Domain(q.info, q.place)
    && HeadOk(q.head, q.place)
    && Colors(q.info, q.ordcolor)
    && Barriers(q.info, q.place)
    && HeadOrder(q.info, q.head)
    && StartedOk(q.info, q.place, q.started)
    && Proxies(q.place)
    && q.inFlight == |InDriver(q.place)|
  }

  // What the trace says agrees with the queue.

  ghost predicate Submits(info: seq<Info>, trace: seq<Event>) {
    forall id: nat, b :: Submit(id, b) in trace <==> id < |info| && info[id].barrier == b
  }

  ghost predicate Overs(info: seq<Info>, place: map<Rq, Place>, trace: seq<Event>) {
    && (forall id: nat {:trigger FsReq(id)} {:trigger At(place, Fs(id))} ::
          Finish(FsReq(id)) in trace <==> At(place, Fs(id)) == Over && !IsBarrier(info, Fs(id)))
    && (forall id: nat {:trigger End(id)} {:trigger At(place, Fs(id))} ::
          End(id) in trace <==> At(place, Fs(id)) == Over && IsBarrier(info, Fs(id)))
  }

  /** Barrier `c` has been started. */
  ghost predicate Begun(place: map<Rq, Place>, c: nat) {
    At(place, Fs(c)) == Over || At(place, Fs(c)) == Held
  }

  ghost predicate Begins(q: Queue) {
    && (forall c: nat, pre, post :: Begin(c, pre, post) in q.trace ==>
          Begun(q.place, c) && (At(q.place, Fs(c)) == Held ==> pre == q.pre && post == q.post))
    && (forall item: Item, e :: Error(item, e) in q.trace && !item.FsReq? ==> Begun(q.place, item.b))
  }

  ghost predicate InTrace(q: Queue) {
    q.ordseq != 0 ==>
      && Begin(q.orig, q.pre, q.post) in q.trace
      && (q.pre && q.ordseq & PREFLUSH != 0 ==> Finish(PreOf(q.orig)) in q.trace)
      && (q.ordseq & BAR != 0 ==> Finish(BarOf(q.orig)) in q.trace)
      && (q.post && q.ordseq & POSTFLUSH != 0 ==> Finish(PostOf(q.orig)) in q.trace)
      && q.orderr == FirstError(q.trace, q.orig)
  }

  ghost predicate History(q: Queue) {
    && Submits(q.info, q.trace)
    && Overs(q.info, q.place, q.trace)
    && Begins(q)
    && InTrace(q)
    && Safe(q.trace)
  }

  ghost predicate Inv(q: Queue) { Structure(q) && Sequence(q) && History(q) }

  lemma {:induction false} AtUpdate(place: map<Rq, Place>, r: Rq, p: Place)
    ensures forall x {:trigger At(place[r := p], x)} :: At(place[r := p], x) == if x == r then p else At(place, x)
  {
  }

  // ---------------------------------------------------------------- counting what is in flight

  lemma {:induction false} FlightUp(place: map<Rq, Place>, r: Rq)
    requires At(place, r) != Driver && IsFs(r)
    ensures |InDriver(place[r := Driver])| == |InDriver(place)| + 1
  {
    assert InDriver(place[r := Driver]) == InDriver(place) + {r};
  }

  lemma {:induction false} FlightDown(place: map<Rq, Place>, r: Rq, p: Place)
    requires At(place, r) == Driver && IsFs(r) && p != Driver
    ensures |InDriver(place[r := p])| == |InDriver(place)| - 1
    ensures |InDriver(place)| >= 1
  {
    assert InDriver(place) == InDriver(place[r := p]) + {r};
  }

  lemma {:induction false} FlightSame(place: map<Rq, Place>, r: Rq, p: Place)
    requires !IsFs(r) || (At(place, r) != Driver && p != Driver)
    ensures |InDriver(place[r := p])| == |InDriver(place)|
  {
    assert InDriver(place[r := p]) == InDriver(place);
  }

  /** The driver holds a request. */
  ghost predicate Busy(place: map<Rq, Place>) { exists r :: At(place, r) == Driver }

  lemma {:induction false} NoneInDriver(place: map<Rq, Place>)
    requires !Busy(place)
    ensures |InDriver(place)| == 0
  {
    assert forall r :: r in InDriver(place) ==> At(place, r) == Driver;
    assert InDriver(place) == {};
  }

  lemma {:induction false} FlightNone(place: map<Rq, Place>, r: Rq)
    requires |InDriver(place)| == 0 && IsFs(r)
    ensures At(place, r) != Driver
  {
    assert InDriver(place) == {};
    assert r in InDriver(place) <==> At(place, r) == Driver;
  }

  // ---------------------------------------------------------------- colours and places in the sequence

  lemma {:induction false} SameColor(info: seq<Info>, ordcolor: bool, i: nat, j: nat)
    requires Colors(info, ordcolor) && i <= j < |info|
    requires forall c: nat :: i <= c < j ==> !info[c].barrier
    ensures info[i].color == info[j].color
    decreases j - i
  {
    if i < j { SameColor(info, ordcolor, i, j - 1); }
  }

  /** The first request behind the sequence belongs to the next colour. */
  lemma {:induction false} FirstLaterWaits(q: Queue, k: nat)
    requires Domain(q.info, q.place) && Colors(q.info, q.ordcolor) && Barriers(q.info, q.place)
    requires HeadOk(q.head, q.place) && HeadOrder(q.info, q.head)
    requires At(q.place, Fs(q.orig)) == Held
    requires k < |q.head| && Rank(q.orig, q.head[k]) == 5
    requires forall i :: 0 <= i < k ==> Rank(q.orig, q.head[i]) < 5
    ensures ReqSeq(q.info, q.orig, q.head[k]) == DONE
  {
    var x := q.head[k].id;
    assert At(q.place, Fs(x)) == Queued;
    assert IsBarrier(q.info, Fs(q.orig));
    forall c: nat | q.orig < c < x ensures !q.info[c].barrier {
      if q.info[c].barrier {
        assert Separated(q.info, q.place, q.orig, c) && Separated(q.info, q.place, c, x);
        assert Fs(c) in q.head;
        var i :| 0 <= i < |q.head| && q.head[i] == Fs(c);
        assert Rank(q.orig, q.head[i]) == 5;
        assert IsBarrier(q.info, q.head[i]);
        assert false;
      }
    }
    SameColor(q.info, q.ordcolor, q.orig + 1, x);
  }

  // ---------------------------------------------------------------- editing the dispatch queue

  lemma {:induction false} HeadInsert(head: seq<Rq>, place: map<Rq, Place>, k: nat, r: Rq)
    requires HeadOk(head, place) && At(place, r) != Queued && k <= |head|
    ensures HeadOk(Insert(head, k, r), place[r := Queued])
  {
    var s := Insert(head, k, r);
    forall x | At(place[r := Queued], x) == Queued ensures x in s {
      if x == r {
        assert s[k] == r;
      } else {
        assert At(place, x) == Queued;
        var i :| 0 <= i < |head| && head[i] == x;
        assert s[if i < k then i else i + 1] == x;
      }
    }
  }

  lemma {:induction false} HeadRemove(head: seq<Rq>, place: map<Rq, Place>, k: nat, p: Place)
    requires HeadOk(head, place) && k < |head| && p != Queued
    ensures HeadOk(RemoveAt(head, k), place[head[k] := p])
  {
    var s := RemoveAt(head, k);
    forall x | At(place[head[k] := p], x) == Queued ensures x in s {
      assert At(place, x) == Queued;
      var i :| 0 <= i < |head| && head[i] == x;
      assert s[if i < k then i else i - 1] == x;
    }
  }

  lemma {:induction false} HeadKeep(head: seq<Rq>, place: map<Rq, Place>, r: Rq, p: Place)
    requires HeadOk(head, place) && At(place, r) != Queued && p != Queued
    ensures HeadOk(head, place[r := p])
  {
    forall x | At(place[r := p], x) == Queued ensures x in head {
      assert At(place, x) == Queued;
    }
  }

  /** `r` respects the barriers in front of and behind position `k`. */
  ghost predicate Fits(info: seq<Info>, head: seq<Rq>, k: nat, r: Rq) {
    r.Fs? ==>
      forall i {:trigger head[i]} ::
        0 <= i < |head| && head[i].Fs? && (IsBarrier(info, head[i]) || IsBarrier(info, r)) ==>
          if i < k then head[i].id < r.id else r.id < head[i].id
  }

  lemma {:induction false} OrderInsert(info: seq<Info>, head: seq<Rq>, k: nat, r: Rq)
    requires HeadOrder(info, head) && k <= |head| && Fits(info, head, k, r)
    ensures HeadOrder(info, Insert(head, k, r))
  {
    var s := Insert(head, k, r);
    assert forall i :: 0 <= i < |s| ==> s[i] == if i < k then head[i] else if i == k then r else head[i - 1];
  }

  lemma {:induction false} OrderRemove(info: seq<Info>, head: seq<Rq>, k: nat)
    requires HeadOrder(info, head) && k < |head|
    ensures HeadOrder(info, RemoveAt(head, k))
  {
    var s := RemoveAt(head, k);
    assert forall i :: 0 <= i < |s| ==> s[i] == if i < k then head[i] else head[i + 1];
  }

  lemma {:induction false} OrderExtend(info: seq<Info>, place: map<Rq, Place>, head: seq<Rq>, x: Info)
    requires HeadOrder(info, head) && HeadOk(head, place) && Domain(info, place)
    ensures HeadOrder(info + [x], head)
  {
    forall i | 0 <= i < |head| && head[i].Fs?
      ensures IsBarrier(info + [x], head[i]) == IsBarrier(info, head[i])
    {
      assert At(place, Fs(head[i].id)) == Queued;
    }
  }

  // ---------------------------------------------------------------- every step keeps the invariant

  lemma {:induction false} SubmitSortStructure(q: Queue)
    requires Structure(q)
    ensures Structure(SubmitSort(q))
  {
    AtUpdate(q.place, Fs(|q.info|), Sched);
    FlightSame(q.place, Fs(|q.info|), Sched);
    HeadKeep(q.head, q.place, Fs(|q.info|), Sched);
    OrderExtend(q.info, q.place, q.head, Info(q.ordcolor, false));
    var q' := SubmitSort(q);
    assert HeadOrder(q'.info, q'.head);
    forall c: nat, x: nat | c < |q'.info| && q'.info[c].barrier ensures Separated(q'.info, q'.place, c, x) {
      assert Separated(q.info, q.place, c, x);
    }
  }

  /** A later submission changes no colour. */
  lemma {:induction false} HuesExtend(info: seq<Info>, place: map<Rq, Place>, head: seq<Rq>, orig: nat, x: Info)
    requires Hues(info, head, orig) && HeadOk(head, place) && Domain(info, place) && At(place, Fs(orig)) == Held
    ensures Hues(info + [x], head, orig)
  {
    forall i | 0 <= i < |head| && Rank(orig, head[i]) == 1 ensures ReqSeq(info + [x], orig, head[i]) == DRAIN {
      assert At(place, head[i]) == Queued;
    }
  }

  lemma {:induction false} SubmitSortSequence(q: Queue)
    requires Structure(q) && Sequence(q)
    ensures Sequence(SubmitSort(q))
  {
    if q.ordseq != 0 { HuesExtend(q.info, q.place, q.head, q.orig, Info(q.ordcolor, false)); }
    AtUpdate(q.place, Fs(|q.info|), Sched);
  }

  lemma {:induction false} BackBarriers(info: seq<Info>, place: map<Rq, Place>, x: Info)
    requires Barriers(info, place) && Domain(info, place) && forall r :: At(place, r) != Sched
    ensures Barriers(info + [x], place[Fs(|info|) := Queued])
  {
    AtUpdate(place, Fs(|info|), Queued);
    var info', place' := info + [x], place[Fs(|info|) := Queued];
    forall c: nat, y: nat | c < |info'| && info'[c].barrier ensures Separated(info', place', c, y) {
      assert c < |info| ==> Separated(info, place, c, y);
      assert At(place, Fs(y)) != Sched;
    }
  }

  lemma {:induction false} BackStarted(info: seq<Info>, place: map<Rq, Place>, started: set<Rq>, x: Info)
    requires StartedOk(info, place, started) && Domain(info, place)
    ensures StartedOk(info + [x], place[Fs(|info|) := Queued], started)
  {
    AtUpdate(place, Fs(|info|), Queued);
    forall y: nat | |info| <= y ensures Fs(y) !in started {
      assert At(place, Fs(y)) == Nowhere;
    }
  }

  lemma {:induction false} BackHead(info: seq<Info>, place: map<Rq, Place>, head: seq<Rq>, x: Info)
    requires HeadOk(head, place) && HeadOrder(info, head) && Domain(info, place)
    ensures HeadOk(head + [Fs(|info|)], place[Fs(|info|) := Queued]) && HeadOrder(info + [x], head + [Fs(|info|)])
  {
    var id := |info|;
    OrderExtend(info, place, head, x);
    assert head + [Fs(id)] == Insert(head, |head|, Fs(id));
    assert At(place, Fs(id)) == Nowhere;
    HeadInsert(head, place, |head|, Fs(id));
    assert Fits(info + [x], head, |head|, Fs(id)) by {
      forall i | 0 <= i < |head| && head[i].Fs? ensures head[i].id < id {
        assert At(place, Fs(head[i].id)) == Queued;
      }
    }
    OrderInsert(info + [x], head, |head|, Fs(id));
  }

  lemma {:induction false} SubmitBackStructure(q: Queue, barrier: bool)
    requires Structure(q) && Enabled(q, DoSubmitBack(barrier))
    ensures Structure(SubmitBack(q, barrier))
  {
    var id, x := |q.info|, Info(q.ordcolor, barrier);
    AtUpdate(q.place, Fs(id), Queued);
    FlightSame(q.place, Fs(id), Queued);
    BackHead(q.info, q.place, q.head, x);
    BackBarriers(q.info, q.place, x);
    BackStarted(q.info, q.place, q.started, x);
  }

  lemma {:induction false} SubmitBackSequence(q: Queue, barrier: bool)
    requires Structure(q) && Sequence(q) && Enabled(q, DoSubmitBack(barrier))
    ensures Sequence(SubmitBack(q, barrier))
  {
    if q.ordseq != 0 { HuesExtend(q.info, q.place, q.head, q.orig, Info(q.ordcolor, barrier)); }
    AtUpdate(q.place, Fs(|q.info|), Queued);
  }

  lemma {:induction false} DispatchBarriers(info: seq<Info>, place: map<Rq, Place>, started: set<Rq>, id: nat)
    requires Barriers(info, place) && Domain(info, place) && StartedOk(info, place, started)
    requires At(place, Fs(id)) == Sched
    ensures Barriers(info, place[Fs(id) := Queued]) && Domain(info, place[Fs(id) := Queued])
    ensures StartedOk(info, place[Fs(id) := Queued], started)
  {
    AtUpdate(place, Fs(id), Queued);
    var place' := place[Fs(id) := Queued];
    forall c: nat, x: nat | c < |info| && info[c].barrier ensures Separated(info, place', c, x) {
      assert Separated(info, place, c, x) && Separated(info, place, c, id);
    }
  }

  lemma {:induction false} DispatchOrder(q: Queue, id: nat, k: nat)
    requires Barriers(q.info, q.place) && HeadOk(q.head, q.place) && HeadOrder(q.info, q.head)
    requires Domain(q.info, q.place)
    requires Enabled(q, DoDispatch(id, k))
    ensures HeadOrder(q.info, Insert(q.head, k, Fs(id))) && HeadOk(Insert(q.head, k, Fs(id)), q.place[Fs(id) := Queued])
  {
    HeadInsert(q.head, q.place, k, Fs(id));
    assert Fits(q.info, q.head, k, Fs(id)) by {
      forall i | 0 <= i < |q.head| && q.head[i].Fs? && IsBarrier(q.info, q.head[i]) ensures i < k && q.head[i].id < id {
        assert Separated(q.info, q.place, q.head[i].id, id);
      }
    }
    OrderInsert(q.info, q.head, k, Fs(id));
  }

  lemma {:induction false} DispatchStructure(q: Queue, id: nat, k: nat)
    requires Structure(q) && Enabled(q, DoDispatch(id, k))
    ensures Structure(Dispatch(q, id, k))
  {
    AtUpdate(q.place, Fs(id), Queued);
    FlightSame(q.place, Fs(id), Queued);
    DispatchOrder(q, id, k);
    DispatchBarriers(q.info, q.place, q.started, id);
  }

  /** Where fs requests are does not matter to the bits. */
  lemma {:induction false} BitsFs(s: bv8, pre: bool, post: bool, place: map<Rq, Place>, started: set<Rq>, id: nat,
                                  p: Place)
    requires Bits(s, pre, post, place, started)
    ensures Bits(s, pre, post, place[Fs(id) := p], started)
  {
    AtUpdate(place, Fs(id), p);
  }

  /** Behind the last fence there are only later requests, and the new one is later too. */
  lemma {:induction false} DispatchRanks(head: seq<Rq>, orig: nat, soft: set<Rq>, k: nat, r: Rq)
    requires Ranks(head, orig, soft) && k <= |head| && Rank(orig, r) == 5
    requires forall i :: k <= i < |head| ==> Rank(orig, head[i]) == 5
    ensures Ranks(Insert(head, k, r), orig, soft)
  {
    var s := Insert(head, k, r);
    assert forall i :: 0 <= i < |s| ==> s[i] == if i < k then head[i] else if i == k then r else head[i - 1];
    assert forall i :: 0 <= i < |head| ==> Rank(orig, head[i]) <= 5;
  }

  lemma {:induction false} DispatchFits(q: Queue, id: nat, k: nat)
    requires Barriers(q.info, q.place) && Domain(q.info, q.place) && Enabled(q, DoDispatch(id, k))
    requires At(q.place, Fs(q.orig)) == Held && Ranks(q.head, q.orig, q.soft)
    ensures Rank(q.orig, Fs(id)) == 5 && forall i :: k <= i < |q.head| ==> Rank(q.orig, q.head[i]) == 5
  {
    assert IsBarrier(q.info, Fs(q.orig));
    assert Separated(q.info, q.place, q.orig, id);
  }

  lemma {:induction false} DispatchDraining(q: Queue, id: nat, k: nat)
    requires Draining(q) && At(q.place, Fs(id)) == Sched && k <= |q.head| && Rank(q.orig, Fs(id)) == 5
    requires forall i :: k <= i < |q.head| ==> Rank(q.orig, q.head[i]) == 5
    ensures Draining(Dispatch(q, id, k))
  {
    AtUpdate(q.place, Fs(id), Queued);
  }

  lemma {:induction false} HuesInsert(info: seq<Info>, head: seq<Rq>, orig: nat, k: nat, r: Rq)
    requires Hues(info, head, orig) && k <= |head| && (Rank(orig, r) == 1 ==> ReqSeq(info, orig, r) == DRAIN)
    ensures Hues(info, Insert(head, k, r), orig)
  {
    var s := Insert(head, k, r);
    assert forall i :: 0 <= i < |s| ==> s[i] == if i < k then head[i] else if i == k then r else head[i - 1];
  }

  lemma {:induction false} DispatchSequence(q: Queue, id: nat, k: nat)
    requires Structure(q) && Sequence(q) && Enabled(q, DoDispatch(id, k))
    ensures Sequence(Dispatch(q, id, k))
  {
    AtUpdate(q.place, Fs(id), Queued);
    if q.ordseq != 0 {
      DispatchFits(q, id, k);
      BitsFs(q.ordseq, q.pre, q.post, q.place, q.started, id, Queued);
      DispatchRanks(q.head, q.orig, q.soft, k, Fs(id));
      HuesInsert(q.info, q.head, q.orig, k, Fs(id));
      DispatchDraining(q, id, k);
    }
  }

  lemma {:induction false} DequeueBarriers(info: seq<Info>, place: map<Rq, Place>, r: Rq, started: set<Rq>)
    requires Barriers(info, place) && Domain(info, place) && StartedOk(info, place, started) && r in started
    requires At(place, r) == Queued
    ensures Barriers(info, place[r := Driver]) && StartedOk(info, place[r := Driver], started)
    ensures Domain(info, place[r := Driver])
  {
    AtUpdate(place, r, Driver);
    var place' := place[r := Driver];
    forall c: nat, x: nat | c < |info| && info[c].barrier ensures Separated(info, place', c, x) {
      assert Separated(info, place, c, x);
    }
  }

  lemma {:induction false} DequeueStructure(q: Queue, k: nat)
    requires Structure(q) && Enabled(q, DoDequeue(k))
    ensures Structure(Dequeue(q, k))
  {
    var r := q.head[k];
    AtUpdate(q.place, r, Driver);
    if IsFs(r) { FlightUp(q.place, r); } else { FlightSame(q.place, r, Driver); }
    HeadRemove(q.head, q.place, k, Driver);
    OrderRemove(q.info, q.head, k);
    DequeueBarriers(q.info, q.place, r, q.started);
  }

  lemma {:induction false} DequeueBits(s: bv8, pre: bool, post: bool, place: map<Rq, Place>, started: set<Rq>, r: Rq)
    requires Bits(s, pre, post, place, started) && At(place, r) == Queued
    ensures Bits(s, pre, post, place[r := Driver], started)
  {
    AtUpdate(place, r, Driver);
  }

  lemma {:induction false} RanksRemove(head: seq<Rq>, orig: nat, soft: set<Rq>, k: nat)
    requires Ranks(head, orig, soft) && k < |head|
    ensures Ranks(RemoveAt(head, k), orig, soft)
  {
    var head' := RemoveAt(head, k);
    assert forall i :: 0 <= i < |head'| ==> head'[i] == head[if i < k then i else i + 1];
  }

  lemma {:induction false} HuesRemove(info: seq<Info>, head: seq<Rq>, orig: nat, k: nat)
    requires Hues(info, head, orig) && k < |head|
    ensures Hues(info, RemoveAt(head, k), orig)
  {
    var head' := RemoveAt(head, k);
    assert forall i :: 0 <= i < |head'| ==> head'[i] == head[if i < k then i else i + 1];
  }

  lemma {:induction false} DequeueSequence(q: Queue, k: nat)
    requires Structure(q) && Sequence(q) && Enabled(q, DoDequeue(k))
    ensures Sequence(Dequeue(q, k))
  {
    var r := q.head[k];
    assert At(q.place, r) == Queued;
    AtUpdate(q.place, r, Driver);
    if q.ordseq != 0 {
      DequeueBits(q.ordseq, q.pre, q.post, q.place, q.started, r);
      RanksRemove(q.head, q.orig, q.soft, k);
      HuesRemove(q.info, q.head, q.orig, k);
    }
  }

  // ---------------------------------------------------------------- every step keeps the history

  lemma {:induction false} FirstErrorLog(past: seq<Event>, e: Event, b: nat)
    ensures !e.Error? ==> FirstError(past + [e], b) == FirstError(past, b)
    ensures e.Error? && (e.item == PreOf(b) || e.item == BarOf(b) || e.item == PostOf(b)) ==>
              FirstError(past + [e], b) == if FirstError(past, b) == 0 then e.err else FirstError(past, b)
    ensures e.Error? && e.item != PreOf(b) && e.item != BarOf(b) && e.item != PostOf(b) ==>
              FirstError(past + [e], b) == FirstError(past, b)
  {
    assert (past + [e])[..|past|] == past;
  }

  lemma {:induction false} NoErrorYet(past: seq<Event>, b: nat)
    requires forall item: Item, e :: Error(item, e) in past && !item.FsReq? ==> item.b != b
    ensures FirstError(past, b) == 0
  {
    if past != [] {
      var t := past[..|past| - 1];
      forall item: Item, e | Error(item, e) in t && !item.FsReq? ensures item.b != b {
        assert Error(item, e) in past;
      }
      NoErrorYet(t, b);
      assert past[|past| - 1] in past;
    }
  }

  /** Moving a request between places that are neither over nor held changes no history. */
  lemma {:induction false} HistoryMoves(q: Queue, q': Queue)
    requires History(q)
    requires q'.info == q.info && q'.trace == q.trace && q'.pre == q.pre && q'.post == q.post
    requires q'.ordseq == q.ordseq && q'.orig == q.orig && q'.orderr == q.orderr
    requires forall id: nat {:trigger At(q'.place, Fs(id))} ::
               && (At(q'.place, Fs(id)) == Over <==> At(q.place, Fs(id)) == Over)
               && (At(q'.place, Fs(id)) == Held <==> At(q.place, Fs(id)) == Held)
    ensures History(q')
  {
  }

  /** An event that is nobody's submission, start, completion, error or end. */
  lemma {:induction false} HistoryLogs(q: Queue, e: Event)
    requires History(q) && SafeEvent(q.trace, e)
    requires e.Issue? || e.Requeue?
    ensures History(Log(q, e))
  {
    SafeExtends(q.trace, e);
    FirstErrorLog(q.trace, e, q.orig);
  }

  lemma {:induction false} SubmitOvers(info: seq<Info>, place: map<Rq, Place>, trace: seq<Event>, x: Info, p: Place)
    requires Overs(info, place, trace) && Domain(info, place) && p != Over && p != Held
    ensures Overs(info + [x], place[Fs(|info|) := p], trace + [Submit(|info|, x.barrier)])
  {
    AtUpdate(place, Fs(|info|), p);
  }

  lemma {:induction false} SubmitSubmits(info: seq<Info>, trace: seq<Event>, x: Info)
    requires Submits(info, trace)
    ensures Submits(info + [x], trace + [Submit(|info|, x.barrier)])
  {
  }

  lemma {:induction false} SubmitBegins(q: Queue, x: Info, p: Place)
    requires Begins(q) && InTrace(q) && Domain(q.info, q.place) && p != Over && p != Held
    ensures var q' := Log(q.(info := q.info + [x], place := q.place[Fs(|q.info|) := p]), Submit(|q.info|, x.barrier));
            Begins(q') && InTrace(q')
  {
    FirstErrorLog(q.trace, Submit(|q.info|, x.barrier), q.orig);
    AtUpdate(q.place, Fs(|q.info|), p);
  }

  lemma {:induction false} HistorySubmits(q: Queue, x: Info, p: Place)
    requires History(q) && Domain(q.info, q.place) && p != Over && p != Held
    ensures History(Log(q.(info := q.info + [x], place := q.place[Fs(|q.info|) := p]), Submit(|q.info|, x.barrier)))
  {
    SafeExtends(q.trace, Submit(|q.info|, x.barrier));
    SubmitOvers(q.info, q.place, q.trace, x, p);
    SubmitSubmits(q.info, q.trace, x);
    SubmitBegins(q, x, p);
  }

  // ---------------------------------------------------------------- starting a sequence

  /** When a barrier reaches the head, what was submitted before it is over or with the driver. */
  lemma {:induction false} AtTheHead(q: Queue, x: nat)
    requires Domain(q.info, q.place) && HeadOk(q.head, q.place) && HeadOrder(q.info, q.head)
    requires Barriers(q.info, q.place)
    requires forall r: Rq :: At(q.place, r) != Held
    requires |q.head| > 0 && IsBarrier(q.info, q.head[0]) && x < q.head[0].id
    ensures At(q.place, Fs(x)) == Over || At(q.place, Fs(x)) == Driver
  {
    var b := q.head[0].id;
    assert Separated(q.info, q.place, b, x);
  }

  lemma {:induction false} SetAsideBarriers(q: Queue)
    requires Structure(q) && Sequence(q) && Enabled(q, DoStart)
    ensures Barriers(q.info, q.place[q.head[0] := Held])
  {
    var b := q.head[0].id;
    var place := q.place[Fs(b) := Held];
    AtUpdate(q.place, Fs(b), Held);
    forall c: nat, x: nat | c < |q.info| && q.info[c].barrier ensures Separated(q.info, place, c, x) {
      assert Separated(q.info, q.place, c, x);
      if c < b {
        AtTheHead(q, c);
        assert Separated(q.info, q.place, c, b);
      }
      if x < b { AtTheHead(q, x); }
    }
  }

  lemma {:induction false} SetAsideStructure(q: Queue)
    requires Structure(q) && Sequence(q) && Enabled(q, DoStart)
    ensures Structure(SetAside(q))
  {
    var b := q.head[0].id;
    assert RemoveAt(q.head, 0) == q.head[1..];
    HeadRemove(q.head, q.place, 0, Held);
    OrderRemove(q.info, q.head, 0);
    AtUpdate(q.place, Fs(b), Held);
    FlightSame(q.place, Fs(b), Held);
    SetAsideBarriers(q);
  }

  lemma {:induction false} PushFrontStructure(q: Queue, r: Rq)
    requires Structure(q) && !r.Fs? && At(q.place, r) == Nowhere
    ensures Structure(PushFront(q, r))
  {
    assert Insert(q.head, 0, r) == [r] + q.head;
    HeadInsert(q.head, q.place, 0, r);
    OrderInsert(q.info, q.head, 0, r);
    AtUpdate(q.place, r, Queued);
    FlightSame(q.place, r, Queued);
    var place' := q.place[r := Queued];
    forall c: nat, x: nat | c < |q.info| && q.info[c].barrier ensures Separated(q.info, place', c, x) {
      assert Separated(q.info, q.place, c, x);
    }
  }

  lemma {:induction false} StartStructure(q: Queue)
    requires Structure(q) && Sequence(q) && Enabled(q, DoStart)
    ensures Structure(StartOrdered(q))
  {
    SetAsideStructure(q);
    var q0 := SetAside(q);
    AtUpdate(q.place, q.head[0], Held);
    var q1 := if q0.post then PushFront(q0, Post) else q0;
    if q0.post { PushFrontStructure(q0, Post); AtUpdate(q0.place, Post, Queued); }
    PushFrontStructure(q1, Bar);
    AtUpdate(q1.place, Bar, Queued);
    if q0.pre { PushFrontStructure(PushFront(q1, Bar), Pre); }
  }

  lemma {:induction false} StartPlaces(q: Queue)
    requires |q.head| > 0 && q.head[0].Fs?
    ensures forall x {:trigger At(StartOrdered(q).place, x)} ::
              At(StartOrdered(q).place, x) ==
              if x == q.head[0] then Held
              else if x == Bar || (x == Post && q.mode.PostFlush()) || (x == Pre && q.mode.PreFlush()) then Queued
              else At(q.place, x)
  {
  }

  /** The queue with the steps of a sequence stacked on it. */
  function Stacked(head: seq<Rq>, pre: bool, post: bool): seq<Rq> {
    var head1 := if post then [Post] + head else head;
    var head2 := [Bar] + head1;
    if pre then [Pre] + head2 else head2
  }

  /** A step goes in front of requests that come no earlier. */
  lemma {:induction false} RanksPush(head: seq<Rq>, orig: nat, soft: set<Rq>, r: Rq)
    requires Ranks(head, orig, soft) && Rank(orig, r) > 1
    requires forall i :: 0 <= i < |head| ==> Rank(orig, r) <= Rank(orig, head[i])
    ensures Ranks([r] + head, orig, soft)
  {
    var head' := [r] + head;
    assert head'[0] == r && forall i :: 0 < i < |head'| ==> head'[i] == head[i - 1];
  }

  lemma {:induction false} StackedRanks(head: seq<Rq>, orig: nat, soft: set<Rq>, pre: bool, post: bool)
    requires forall i :: 0 <= i < |head| ==> Rank(orig, head[i]) == 5
    ensures Ranks(Stacked(head, pre, post), orig, soft)
    ensures forall i :: 0 <= i < |Stacked(head, pre, post)| ==> Rank(orig, Stacked(head, pre, post)[i]) > 1
  {
    RanksPush(head, orig, soft, Post);
    var head1 := if post then [Post] + head else head;
    assert forall i :: 0 <= i < |head1| ==> Rank(orig, head1[i]) >= 4;
    RanksPush(head1, orig, soft, Bar);
    var head2 := [Bar] + head1;
    assert forall i :: 0 <= i < |head2| ==> Rank(orig, head2[i]) >= 3;
    RanksPush(head2, orig, soft, Pre);
  }

  lemma {:induction false} StartHead(q: Queue)
    requires |q.head| > 0 && q.head[0].Fs?
    ensures StartOrdered(q).head == Stacked(q.head[1..], q.mode.PreFlush(), q.mode.PostFlush())
  {
  }

  lemma {:induction false} StartRanks(q: Queue)
    requires HeadOk(q.head, q.place) && HeadOrder(q.info, q.head) && Sequence(q) && Enabled(q, DoStart)
    ensures Ranks(StartOrdered(q).head, q.head[0].id, StartOrdered(q).soft)
    ensures Hues(q.info, StartOrdered(q).head, q.head[0].id)
  {
    var b, rest := q.head[0].id, q.head[1..];
    forall i | 0 <= i < |rest| ensures Rank(b, rest[i]) == 5 {
      assert rest[i] == q.head[i + 1];
      assert At(q.place, q.head[i + 1]) == Queued;
    }
    StartHead(q);
    StackedRanks(rest, b, StartOrdered(q).soft, q.mode.PreFlush(), q.mode.PostFlush());
  }

  /** The bits of a sequence that has just been stacked. */
  function FirstBits(pre: bool, post: bool, idle: bool): bv8 {
    if idle then
      if pre then if post then 0x03 else 0x13 else if post then 0x07 else 0x17
    else
      if pre then if post then 0x01 else 0x11 else if post then 0x05 else 0x15
  }

  lemma {:induction false} StartSeq(q: Queue)
    requires |q.head| > 0 && q.head[0].Fs?
    ensures StartOrdered(q).ordseq == FirstBits(q.mode.PreFlush(), q.mode.PostFlush(), q.inFlight == 0)
    ensures StartOrdered(q).started ==
            q.started - {Bar} - (if q.mode.PreFlush() then {Pre} else {}) - (if q.mode.PostFlush() then {Post} else {})
  {
  }

  lemma {:induction false} FreshBits(pre: bool, post: bool, idle: bool, place: map<Rq, Place>, started: set<Rq>)
    requires Pre !in started && Bar !in started && Post !in started && (post ==> pre)
    requires (At(place, Pre) == Nowhere <==> !pre) && At(place, Bar) != Nowhere
    requires (At(place, Post) == Nowhere <==> !post)
    ensures Bits(FirstBits(pre, post, idle), pre, post, place, started)
  {
  }

  lemma {:induction false} StartBits(q: Queue)
    requires StartedOk(q.info, q.place, q.started) && Sequence(q) && Enabled(q, DoStart)
    ensures var q' := StartOrdered(q); Bits(q'.ordseq, q'.pre, q'.post, q'.place, q'.started)
  {
    StartPlaces(q);
    StartSeq(q);
    var q' := StartOrdered(q);
    assert At(q.place, Pre) == At(q.place, Post) == At(q.place, Bar) == Nowhere;
    FreshBits(q'.pre, q'.post, q.inFlight == 0, q'.place, q'.started);
  }

  lemma {:induction false} StartSequence(q: Queue)
    requires Structure(q) && Sequence(q) && Enabled(q, DoStart)
    ensures Sequence(StartOrdered(q))
  {
    var b, q' := q.head[0].id, StartOrdered(q);
    StartBits(q);
    StartRanks(q);
    StartPlaces(q);
    if q.inFlight == 0 {
      forall x: nat | x < b ensures At(q'.place, Fs(x)) == Over {
        AtTheHead(q, x);
        FlightNone(q.place, Fs(x));
      }
    }
  }

  lemma {:induction false} StartInTrace(q: Queue)
    requires |q.head| > 0 && q.head[0].Fs? && FirstError(q.trace, q.head[0].id) == 0
    ensures InTrace(StartOrdered(q))
  {
    var q' := StartOrdered(q);
    FirstErrorLog(q.trace, Begin(q.head[0].id, q'.pre, q'.post), q.head[0].id);
  }

  /** start_ordered hands out its first step at once exactly when nothing is in flight. */
  lemma {:induction false} StartOffers(q: Queue)
    requires Enabled(q, DoStart)
    ensures Offered(StartOrdered(q)) <==> q.inFlight == 0
  {
  }

  lemma {:induction false} StartBegins(q: Queue)
    requires |q.head| > 0 && q.head[0].Fs? && At(q.place, q.head[0]) == Queued && Begins(q)
    requires forall r :: At(q.place, r) != Held
    ensures Begins(StartOrdered(q))
  {
    StartPlaces(q);
  }

  lemma {:induction false} StartOvers(q: Queue)
    requires |q.head| > 0 && q.head[0].Fs? && At(q.place, q.head[0]) == Queued
    requires Overs(q.info, q.place, q.trace)
    ensures Overs(StartOrdered(q).info, StartOrdered(q).place, StartOrdered(q).trace)
  {
    StartPlaces(q);
    var q' := StartOrdered(q);
    var b := q.head[0].id;
    var e := Begin(b, q'.pre, q'.post);
    assert q'.trace == q.trace + [e];
  }

  lemma {:induction false} BeginKeeps(q: Queue, q': Queue, b: nat)
    requires History(q) && q'.info == q.info && q'.trace == q.trace + [Begin(b, q'.pre, q'.post)]
    requires InTrace(q') && Begins(q') && Overs(q'.info, q'.place, q'.trace)
    ensures History(q')
  {
    SafeExtends(q.trace, Begin(b, q'.pre, q'.post));
  }

  lemma {:induction false} StartHistory(q: Queue)
    requires HeadOk(q.head, q.place) && Sequence(q) && History(q) && Enabled(q, DoStart)
    ensures History(StartOrdered(q))
  {
    var b := q.head[0].id;
    assert At(q.place, Fs(b)) == Queued;
    NoErrorYet(q.trace, b);
    StartInTrace(q);
    StartBegins(q);
    StartOvers(q);
    BeginKeeps(q, StartOrdered(q), b);
  }

  // ---------------------------------------------------------------- handing a request to the driver

  /** The current step is past every step whose bit is below it. */
  lemma {:induction false} CurSeqBits(s: bv8)
    requires s & STARTED != 0 && s & 0xE0 == 0
    ensures DRAIN <= CurSeq(s)
    ensures PREFLUSH <= CurSeq(s) ==> s & DRAIN != 0
    ensures BAR <= CurSeq(s) ==> s & DRAIN != 0 && s & PREFLUSH != 0
    ensures POSTFLUSH <= CurSeq(s) ==> s & DRAIN != 0 && s & PREFLUSH != 0 && s & BAR != 0
    ensures CurSeq(s) == DONE <==> s == 0x1F
    ensures CurSeq(s) <= DONE
    ensures CurSeq(s) == DRAIN <==> s & DRAIN == 0
  {
  }

  /** While a sequence runs, only a request being drained or the sequence itself is handed out. */
  lemma {:induction false} OfferedIsDue(q: Queue)
    requires Structure(q) && Sequence(q) && q.ordseq != 0 && |q.head| > 0 && Offered(q)
    ensures Rank(q.orig, q.head[0]) < 5
    ensures !q.head[0].Fs? ==> Drained(q.orig, q.place)
    ensures q.head[0] == Bar ==> q.ordseq & PREFLUSH != 0
    ensures q.head[0] == Post ==> q.ordseq & BAR != 0
  {
    CurSeqBits(q.ordseq);
    if Rank(q.orig, q.head[0]) == 5 {
      FirstLaterWaits(q, 0);
    }
  }

  /** No barrier that is still to come stands before the request that is handed out. */
  lemma {:induction false} IssuedBeforeBarriers(q: Queue, c: nat)
    requires Structure(q) && Sequence(q) && Enabled(q, DoIssue) && q.head[0].Fs?
    requires c < |q.info| && q.info[c].barrier && At(q.place, Fs(c)) != Over
    ensures q.head[0].id < c
  {
    var x := q.head[0].id;
    assert At(q.place, Fs(x)) == Queued;
    if q.ordseq != 0 {
      OfferedIsDue(q);
      assert Separated(q.info, q.place, c, q.orig);
    } else {
      assert At(q.place, Fs(c)) == Queued by { assert Separated(q.info, q.place, c, c); }
      var j :| 0 <= j < |q.head| && q.head[j] == Fs(c);
      assert IsBarrier(q.info, q.head[j]);
    }
  }

  lemma {:induction false} IssueStructure(q: Queue)
    requires Structure(q) && Sequence(q) && Enabled(q, DoIssue)
    ensures Structure(IssueHead(q))
  {
    if q.head[0].Fs? {
      forall c: nat | c < |q.info| && q.info[c].barrier && At(q.place, Fs(c)) != Over ensures q.head[0].id < c {
        IssuedBeforeBarriers(q, c);
      }
    }
  }

  lemma {:induction false} IssueSequence(q: Queue)
    requires Structure(q) && Sequence(q) && Enabled(q, DoIssue)
    ensures Sequence(IssueHead(q))
  {
    if q.ordseq != 0 {
      OfferedIsDue(q);
      CurSeqBits(q.ordseq);
    }
  }

  lemma {:induction false} DrainedInTrace(q: Queue)
    requires Overs(q.info, q.place, q.trace) && Drained(q.orig, q.place)
    ensures AllBefore(q.trace, q.orig)
  {
    forall id: nat | id < q.orig ensures Finish(FsReq(id)) in q.trace || End(id) in q.trace {
      assert At(q.place, Fs(id)) == Over;
    }
  }

  lemma {:induction false} IssueProxySafe(q: Queue)
    requires History(q) && At(q.place, Fs(q.orig)) == Held && q.ordseq != 0 && |q.head| > 0
    requires q.head[0] == Bar ==> q.ordseq & PREFLUSH != 0
    requires q.head[0] == Post ==> q.ordseq & BAR != 0
    ensures q.head[0] == Bar ==>
            forall post :: Begin(q.orig, true, post) in q.trace ==> Finish(PreOf(q.orig)) in q.trace
    ensures q.head[0] == Post ==> Finish(BarOf(q.orig)) in q.trace
  {
  }

  lemma {:induction false} IssueSafe(q: Queue)
    requires Structure(q) && Sequence(q) && History(q) && Enabled(q, DoIssue)
    ensures SafeEvent(q.trace, Issue(ItemOf(q.orig, q.head[0])))
  {
    var r := q.head[0];
    if r.Fs? {
      forall b: nat | b < r.id && Submit(b, true) in q.trace ensures End(b) in q.trace {
        if At(q.place, Fs(b)) != Over { IssuedBeforeBarriers(q, b); }
      }
    } else {
      OfferedIsDue(q);
      DrainedInTrace(q);
      IssueProxySafe(q);
    }
  }

  lemma {:induction false} IssueHistory(q: Queue)
    requires Structure(q) && Sequence(q) && History(q) && Enabled(q, DoIssue)
    ensures History(IssueHead(q))
  {
    var r := q.head[0];
    var e := Issue(ItemOf(q.orig, r));
    assert SafeEvent(q.trace, e) by { IssueSafe(q); }
    if r !in q.started { HistoryLogs(q.(started := q.started + {r}), e); }
  }

  // ---------------------------------------------------------------- requeueing

  /** The walk depends on the queue's order and colours only. */
  lemma {:induction false} SamePos(q: Queue, q': Queue, seqno: bv8, k: nat)
    requires q.info == q'.info && q.orig == q'.orig && q.head == q'.head && k <= |q.head|
    ensures RequeuePos(q, seqno, k) == RequeuePos(q', seqno, k)
    decreases |q.head| - k
  {
    if k < |q.head| { SamePos(q, q', seqno, k + 1); }
  }

  /** While a sequence is in progress, a file-system request is given back only if its colour is the barrier's. */
  ghost predicate InColor(q: Queue, a: Action) {
    a.DoRequeue? && a.r.Fs? && q.ordseq != 0 ==> ReqSeq(q.info, q.orig, a.r) == DRAIN
  }

  /** What the driver may give back comes no later in the sequence than the head of the queue. */
  lemma {:induction false} RequeueRank(q: Queue, r: Rq)
    requires Structure(q) && Sequence(q) && q.ordseq != 0 && At(q.place, r) == Driver && InColor(q, DoRequeue(r))
    ensures Rank(q.orig, r) < 5
    ensures |q.head| > 0 ==> Rank(q.orig, r) <= Rank(q.orig, q.head[0])
    ensures |q.head| > 0 ==> ReqSeq(q.info, q.orig, r) <= ReqSeq(q.info, q.orig, q.head[0])
  {
    if r.Fs? {
      assert Separated(q.info, q.place, q.orig, r.id);
    } else if |q.head| > 0 {
      assert At(q.place, q.head[0]) == Queued;
      if Rank(q.orig, q.head[0]) == 5 { FirstLaterWaits(q, 0); }
    }
  }

  /** The walk along queue_head always stops at its first entry. */
  lemma {:induction false} RequeueAtHead(q: Queue, r: Rq)
    requires Structure(q) && Sequence(q) && q.ordseq != 0 && At(q.place, r) == Driver && InColor(q, DoRequeue(r))
    ensures RequeuePos(q, ReqSeq(q.info, q.orig, r), 0) == 0
  {
    RequeueRank(q, r);
  }

  lemma {:induction false} RequeueBarriers(info: seq<Info>, place: map<Rq, Place>, started: set<Rq>, r: Rq)
    requires Barriers(info, place) && Domain(info, place) && StartedOk(info, place, started) && At(place, r) == Driver
    ensures Barriers(info, place[r := Queued]) && Domain(info, place[r := Queued])
    ensures StartedOk(info, place[r := Queued], started - {r})
  {
    AtUpdate(place, r, Queued);
    var place' := place[r := Queued];
    forall c: nat, x: nat | c < |info| && info[c].barrier ensures Separated(info, place', c, x) {
      assert Separated(info, place, c, x);
    }
  }

  lemma {:induction false} RequeueFlight(place: map<Rq, Place>, r: Rq)
    requires At(place, r) == Driver
    ensures |InDriver(place[r := Queued])| == if IsFs(r) then |InDriver(place)| - 1 else |InDriver(place)|
  {
    if IsFs(r) { FlightDown(place, r, Queued); } else { FlightSame(place, r, Queued); }
  }

  lemma {:induction false} RequeueFront(q: Queue, r: Rq)
    requires Structure(q) && Sequence(q) && At(q.place, r) == Driver && InColor(q, DoRequeue(r))
    ensures RequeueRq(q, r).head == Insert(q.head, 0, r)
  {
    if q.ordseq != 0 { RequeueAtHead(q, r); }
  }

  lemma {:induction false} RequeueOrder(q: Queue, r: Rq)
    requires Structure(q) && At(q.place, r) == Driver
    ensures HeadOrder(q.info, Insert(q.head, 0, r))
  {
    if r.Fs? {
      forall i | 0 <= i < |q.head| && q.head[i].Fs? && IsBarrier(q.info, q.head[i]) ensures r.id < q.head[i].id {
        assert At(q.place, q.head[i]) == Queued;
        assert Separated(q.info, q.place, q.head[i].id, r.id);
      }
    }
    OrderInsert(q.info, q.head, 0, r);
  }

  /** The structure when r is put back at the head. */
  lemma {:induction false} RequeueStructure(q: Queue, r: Rq)
    requires Structure(q) && Sequence(q) && At(q.place, r) == Driver && InColor(q, DoRequeue(r))
    ensures Structure(RequeueRq(q, r))
  {
    RequeueFront(q, r);
    HeadInsert(q.head, q.place, 0, r);
    AtUpdate(q.place, r, Queued);
    RequeueFlight(q.place, r);
    RequeueOrder(q, r);
    RequeueBarriers(q.info, q.place, q.started, r);
  }

  lemma {:induction false} RequeueRanks(head: seq<Rq>, orig: nat, soft: set<Rq>, r: Rq)
    requires Ranks(head, orig, soft) && (|head| > 0 ==> Rank(orig, r) <= Rank(orig, head[0]))
    ensures Ranks(Insert(head, 0, r), orig, soft + {r})
  {
    var s := Insert(head, 0, r);
    assert s[0] == r && forall i :: 0 < i < |s| ==> s[i] == head[i - 1];
    forall i | 0 < i < |s| ensures Rank(orig, r) <= Rank(orig, s[i]) {
      if i > 1 { assert Rank(orig, head[0]) <= Rank(orig, head[i - 1]); }
    }
  }

  lemma {:induction false} RequeueBits(s: bv8, pre: bool, post: bool, place: map<Rq, Place>, started: set<Rq>, r: Rq)
    requires Bits(s, pre, post, place, started) && At(place, r) == Driver
    ensures Bits(s, pre, post, place[r := Queued], started - {r})
  {
    AtUpdate(place, r, Queued);
  }

  lemma {:induction false} RequeueDraining(q: Queue, r: Rq)
    requires Draining(q) && At(q.place, r) == Driver && q.inFlight == |InDriver(q.place)| && Rank(q.orig, r) < 5
    requires |q.head| > 0 ==> Rank(q.orig, r) <= Rank(q.orig, q.head[0])
    requires !r.Fs? && r in q.started ==> q.ordseq & DRAIN != 0
    requires RequeueRq(q, r).head == Insert(q.head, 0, r) && r in q.started
    ensures Draining(RequeueRq(q, r))
  {
    AtUpdate(q.place, r, Queued);
  }

  lemma {:induction false} RequeueSequence(q: Queue, r: Rq)
    requires Structure(q) && Sequence(q) && At(q.place, r) == Driver && InColor(q, DoRequeue(r))
    ensures Sequence(RequeueRq(q, r))
  {
    AtUpdate(q.place, r, Queued);
    RequeueFront(q, r);
    if q.ordseq != 0 {
      RequeueRank(q, r);
      RequeueRanks(q.head, q.orig, q.soft, r);
      HuesInsert(q.info, q.head, q.orig, 0, r);
      RequeueBits(q.ordseq, q.pre, q.post, q.place, q.started, r);
      RequeueDraining(q, r);
    }
  }

  lemma {:induction false} RequeueHistory(q: Queue, r: Rq)
    requires History(q) && At(q.place, r) == Driver
    ensures History(RequeueRq(q, r))
  {
    AtUpdate(q.place, r, Queued);
    var q1 := RequeueRq(q, r).(trace := q.trace);
    HistoryMoves(q, q1);
    HistoryLogs(q1, Requeue(ItemOf(q.orig, r)));
  }

  // ---------------------------------------------------------------- completing a file-system request

  lemma {:induction false} ReleasedBarriers(info: seq<Info>, place: map<Rq, Place>, r: Rq, p: Place)
    requires Barriers(info, place) && At(place, r) == Driver && p == if r.Fs? then Over else Nowhere
    ensures Barriers(info, place[r := p])
  {
    AtUpdate(place, r, p);
    var place' := place[r := p];
    forall c: nat, x: nat | c < |info| && info[c].barrier ensures Separated(info, place', c, x) {
      assert Separated(info, place, c, x);
      assert r.Fs? ==> Separated(info, place, c, r.id);
    }
  }

  lemma {:induction false} ReleasedFlight(place: map<Rq, Place>, r: Rq, p: Place)
    requires At(place, r) == Driver && p != Driver
    ensures |InDriver(place[r := p])| == if IsFs(r) then |InDriver(place)| - 1 else |InDriver(place)|
  {
    if IsFs(r) { FlightDown(place, r, p); } else { FlightSame(place, r, p); }
  }

  lemma {:induction false} ReleasedDomain(info: seq<Info>, place: map<Rq, Place>, r: Rq, p: Place)
    requires Domain(info, place) && Proxies(place) && At(place, r) == Driver && p == if r.Fs? then Over else Nowhere
    ensures Domain(info, place[r := p]) && Proxies(place[r := p])
  {
    AtUpdate(place, r, p);
  }

  lemma {:induction false} ReleasedStarted(q: Queue, r: Rq, p: Place)
    requires Barriers(q.info, q.place) && StartedOk(q.info, q.place, q.started) && At(q.place, r) == Driver
    requires p == if r.Fs? then Over else Nowhere
    ensures StartedOk(q.info, q.place[r := p], q.started - {r})
  {
    AtUpdate(q.place, r, p);
  }

  lemma {:induction false} ReleasedStructure(q: Queue, r: Rq, err: int)
    requires Structure(q) && At(q.place, r) == Driver
    ensures Structure(Released(q, r, err))
  {
    var p := if r.Fs? then Over else Nowhere;
    HeadKeep(q.head, q.place, r, p);
    ReleasedFlight(q.place, r, p);
    ReleasedDomain(q.info, q.place, r, p);
    ReleasedBarriers(q.info, q.place, r, p);
    ReleasedStarted(q, r, p);
  }

  /** While an earlier request is still with the driver, the sequence waits for the drain. */
  lemma {:induction false} StillDraining(q: Queue, x: nat)
    requires Structure(q) && Sequence(q) && q.ordseq != 0 && At(q.place, Fs(x)) == Driver
    ensures x < q.orig && CurSeq(q.ordseq) == DRAIN && q.ordseq & DRAIN == 0
    ensures Bar in q.head
  {
    assert Separated(q.info, q.place, q.orig, x);
    CurSeqBits(q.ordseq);
    assert At(q.place, Bar) == Queued;
  }

  /** With nothing in flight and no earlier request at the head, everything earlier is over. */
  lemma {:induction false} DrainIsOver(q: Queue)
    requires Structure(q) && q.inFlight == 0 && At(q.place, Fs(q.orig)) == Held && Ranks(q.head, q.orig, q.soft)
    requires |q.head| > 0 && Rank(q.orig, q.head[0]) > 1
    ensures Drained(q.orig, q.place)
  {
    forall x: nat | x < q.orig ensures At(q.place, Fs(x)) == Over {
      FlightNone(q.place, Fs(x));
      assert Separated(q.info, q.place, q.orig, x);
    }
  }

  /** The head waits for the drain exactly when it is an earlier request. */
  lemma {:induction false} HeadRankSeq(q: Queue)
    requires HeadOk(q.head, q.place) && q.ordseq != 0 && At(q.place, Fs(q.orig)) == Held
    requires Ranks(q.head, q.orig, q.soft) && Hues(q.info, q.head, q.orig) && |q.head| > 0 && Bar in q.head
    ensures Rank(q.orig, q.head[0]) > 1 <==> ReqSeq(q.info, q.orig, q.head[0]) > DRAIN
  {
    assert At(q.place, q.head[0]) == Queued;
  }

  lemma {:induction false} DrainBits(q: Queue)
    requires Bits(q.ordseq, q.pre, q.post, q.place, q.started) && q.ordseq & DRAIN == 0
    ensures var q' := CompleteSeq(q, DRAIN, 0);
            && q' == q.(ordseq := q.ordseq | DRAIN)
            && q'.ordseq & DRAIN != 0
            && Bits(q'.ordseq, q.pre, q.post, q.place, q.started)
  {
    CurSeqBits(q.ordseq | DRAIN);
  }

  lemma {:induction false} DrainCheckSequence(q: Queue)
    requires Structure(q) && q.ordseq != 0 && At(q.place, Fs(q.orig)) == Held && Ranks(q.head, q.orig, q.soft)
    requires Bits(q.ordseq, q.pre, q.post, q.place, q.started) && q.ordseq & DRAIN == 0 && Bar in q.head
    requires Hues(q.info, q.head, q.orig)
    ensures Structure(DrainCheck(q)) && Sequence(DrainCheck(q))
  {
    CurSeqBits(q.ordseq);
    HeadRankSeq(q);
    if q.inFlight == 0 && Rank(q.orig, q.head[0]) > 1 {
      DrainIsOver(q);
      DrainBits(q);
    }
  }

  lemma {:induction false} ReleasedBits(q: Queue, x: nat, err: int)
    requires Sequence(q) && q.ordseq != 0
    ensures var q1 := Released(q, Fs(x), err); Bits(q1.ordseq, q1.pre, q1.post, q1.place, q1.started)
  {
    AtUpdate(q.place, Fs(x), Over);
  }

  lemma {:induction false} CompleteFsKeeps(q: Queue, x: nat, err: int)
    requires Structure(q) && Sequence(q) && At(q.place, Fs(x)) == Driver
    ensures Structure(Complete(q, Fs(x), err)) && Sequence(Complete(q, Fs(x), err))
  {
    var q1 := Released(q, Fs(x), err);
    assert Structure(q1) by { ReleasedStructure(q, Fs(x), err); }
    if q.ordseq != 0 {
      StillDraining(q, x);
      assert Bits(q1.ordseq, q1.pre, q1.post, q1.place, q1.started) by { ReleasedBits(q, x, err); }
      assert At(q1.place, Fs(q1.orig)) == Held by { AtUpdate(q.place, Fs(x), Over); }
      DrainCheckSequence(q1);
    } else {
      AtUpdate(q.place, Fs(x), Over);
    }
  }

  lemma {:induction false} HistoryFsError(q: Queue, id: nat, err: int)
    requires History(q)
    ensures History(Log(q, Error(FsReq(id), err)))
  {
    SafeExtends(q.trace, Error(FsReq(id), err));
    FirstErrorLog(q.trace, Error(FsReq(id), err), q.orig);
  }

  lemma {:induction false} OversFinish(info: seq<Info>, place: map<Rq, Place>, trace: seq<Event>, x: nat)
    requires Overs(info, place, trace) && At(place, Fs(x)) == Driver && !IsBarrier(info, Fs(x))
    ensures Overs(info, place[Fs(x) := Over], trace + [Finish(FsReq(x))])
  {
    AtUpdate(place, Fs(x), Over);
  }

  lemma {:induction false} BeginsFinish(q: Queue, x: nat)
    requires Begins(q) && At(q.place, Fs(x)) == Driver
    ensures Begins(Log(q.(place := q.place[Fs(x) := Over]), Finish(FsReq(x))))
  {
    AtUpdate(q.place, Fs(x), Over);
  }

  lemma {:induction false} InTraceFinish(q: Queue, q': Queue, x: nat)
    requires InTrace(q) && q' == Log(q.(place := q.place[Fs(x) := Over]), Finish(FsReq(x)))
    ensures InTrace(q')
  {
    FirstErrorLog(q.trace, Finish(FsReq(x)), q.orig);
  }

  lemma {:induction false} HistoryFinish(q: Queue, x: nat)
    requires History(q) && At(q.place, Fs(x)) == Driver && !IsBarrier(q.info, Fs(x))
    ensures History(Log(q.(place := q.place[Fs(x) := Over]), Finish(FsReq(x))))
  {
    SafeExtends(q.trace, Finish(FsReq(x)));
    OversFinish(q.info, q.place, q.trace, x);
    BeginsFinish(q, x);
    InTraceFinish(q, Log(q.(place := q.place[Fs(x) := Over]), Finish(FsReq(x))), x);
  }

  lemma {:induction false} NotBarrier(q: Queue, x: nat)
    requires Structure(q) && At(q.place, Fs(x)) == Driver
    ensures !IsBarrier(q.info, Fs(x))
  {
    assert Fs(x) in q.started;
  }

  lemma {:induction false} ReleasedFsHistory(q: Queue, x: nat, err: int)
    requires History(q) && At(q.place, Fs(x)) == Driver && !IsBarrier(q.info, Fs(x))
    ensures History(Released(q, Fs(x), err))
  {
    var q0 := if err != 0 then Log(q, Error(FsReq(x), err)) else q;
    if err != 0 { HistoryFsError(q, x, err); }
    HistoryFinish(q0, x);
    HistoryMoves(Log(q0.(place := q0.place[Fs(x) := Over]), Finish(FsReq(x))), Released(q, Fs(x), err));
  }

  lemma {:induction false} DrainHistory(q: Queue)
    requires History(q) && q.ordseq != 0
    ensures History(q.(ordseq := q.ordseq | DRAIN))
  {
  }

  lemma {:induction false} CompleteFsHistory(q: Queue, x: nat, err: int)
    requires Structure(q) && Sequence(q) && History(q) && At(q.place, Fs(x)) == Driver
    ensures History(Complete(q, Fs(x), err))
  {
    NotBarrier(q, x);
    ReleasedFsHistory(q, x, err);
    var q1 := Released(q, Fs(x), err);
    if DrainCheck(q1) != q1 {
      assert DrainCheck(q1) == q1.(ordseq := q1.ordseq | DRAIN) by {
        StillDraining(q, x);
        ReleasedBits(q, x, err);
        DrainBits(q1);
      }
      DrainHistory(q1);
    }
  }

  // ---------------------------------------------------------------- completing a step of the sequence

  lemma {:induction false} ProxyDue(q: Queue, r: Rq)
    requires Structure(q) && Sequence(q) && At(q.place, r) == Driver && !r.Fs?
    ensures q.ordseq != 0 && Drained(q.orig, q.place) && q.ordseq & DRAIN != 0 && CurSeq(q.ordseq) != DRAIN
    ensures q.ordseq & SeqBit(r) == 0
    ensures (q.ordseq | SeqBit(r)) & STARTED != 0 && (q.ordseq | SeqBit(r)) & 0xE0 == 0
    ensures (q.ordseq | SeqBit(r)) & DRAIN != 0
  {
    assert r in q.started;
    CurSeqBits(q.ordseq);
  }

  lemma {:induction false} ProxyBits(s: bv8, pre: bool, post: bool, place: map<Rq, Place>, started: set<Rq>, r: Rq)
    requires Bits(s, pre, post, place, started) && !r.Fs? && r in started && s | SeqBit(r) != 0x1F
    ensures Bits(s | SeqBit(r), pre, post, place[r := Nowhere], started - {r})
  {
  }

  /** What is left once the driver has completed step `r` and it has been recorded. */
  function Stepped(q: Queue, r: Rq, err: int): Queue { Recorded(Released(q, r, err), SeqBit(r), err) }

  lemma {:induction false} CompleteProxyIs(q: Queue, r: Rq, err: int)
    requires !r.Fs? && CurSeq(q.ordseq) != DRAIN
    requires (q.ordseq | SeqBit(r)) & STARTED != 0 && (q.ordseq | SeqBit(r)) & 0xE0 == 0
    ensures Complete(q, r, err) ==
            if q.ordseq | SeqBit(r) == 0x1F then Ended(Stepped(q, r, err)) else Stepped(q, r, err)
  {
    CurSeqBits(q.ordseq | SeqBit(r));
  }

  lemma {:induction false} SteppedStructure(q: Queue, r: Rq, err: int)
    requires Structure(q) && At(q.place, r) == Driver
    ensures Structure(Stepped(q, r, err))
  {
    ReleasedStructure(q, r, err);
  }

  lemma {:induction false} SteppedSequence(q: Queue, r: Rq, err: int)
    requires Structure(q) && Sequence(q) && At(q.place, r) == Driver && !r.Fs? && q.ordseq | SeqBit(r) != 0x1F
    ensures Sequence(Stepped(q, r, err))
  {
    ProxyDue(q, r);
    var q' := Stepped(q, r, err);
    assert Bits(q'.ordseq, q'.pre, q'.post, q'.place, q'.started) by {
      ProxyBits(q.ordseq, q.pre, q.post, q.place, q.started, r);
    }
    assert At(q'.place, Fs(q'.orig)) == Held && Drained(q'.orig, q'.place) by { AtUpdate(q.place, r, Nowhere); }
    assert q'.ordseq & DRAIN != 0 && q'.ordseq != 0;
    assert Ranks(q'.head, q'.orig, q'.soft) && Hues(q'.info, q'.head, q'.orig);
  }

  lemma {:induction false} EndedBarriers(info: seq<Info>, place: map<Rq, Place>, orig: nat)
    requires Domain(info, place) && Barriers(info, place) && At(place, Fs(orig)) == Held && Drained(orig, place)
    ensures Barriers(info, place[Fs(orig) := Over])
    ensures forall r: Rq {:trigger At(place[Fs(orig) := Over], r)} :: At(place[Fs(orig) := Over], r) != Held
  {
    AtUpdate(place, Fs(orig), Over);
    var place' := place[Fs(orig) := Over];
    assert IsBarrier(info, Fs(orig));
    forall c: nat, x: nat | c < |info| && info[c].barrier ensures Separated(info, place', c, x) {
      assert Separated(info, place, c, x) && Separated(info, place, c, orig) && Separated(info, place, orig, c);
    }
    forall r: Rq ensures At(place', r) != Held {
      if At(place, r) == Held { assert IsBarrier(info, r); assert Separated(info, place, orig, r.id); }
    }
  }

  lemma {:induction false} EndedStructure(q: Queue)
    requires Structure(q) && At(q.place, Fs(q.orig)) == Held && Drained(q.orig, q.place)
    ensures Structure(Ended(q))
  {
    HeadKeep(q.head, q.place, Fs(q.orig), Over);
    AtUpdate(q.place, Fs(q.orig), Over);
    FlightSame(q.place, Fs(q.orig), Over);
    EndedBarriers(q.info, q.place, q.orig);
  }

  lemma {:induction false} LastStep(s: bv8, pre: bool, post: bool, place: map<Rq, Place>, started: set<Rq>, r: Rq)
    requires Bits(s, pre, post, place, started) && !r.Fs? && s | SeqBit(r) == 0x1F
    ensures forall p: Rq :: !p.Fs? ==> At(place[r := Nowhere], p) == Nowhere
  {
    AtUpdate(place, r, Nowhere);
    assert r != Pre ==> s & PREFLUSH != 0;
    assert r != Bar ==> s & BAR != 0;
    assert r != Post ==> s & POSTFLUSH != 0;
  }

  lemma {:induction false} CompleteProxyKeeps(q: Queue, r: Rq, err: int)
    requires Structure(q) && Sequence(q) && At(q.place, r) == Driver && !r.Fs?
    ensures Structure(Complete(q, r, err)) && Sequence(Complete(q, r, err))
  {
    ProxyDue(q, r);
    CompleteProxyIs(q, r, err);
    SteppedStructure(q, r, err);
    var q1 := Stepped(q, r, err);
    if q.ordseq | SeqBit(r) == 0x1F {
      AtUpdate(q.place, r, Nowhere);
      EndedStructure(q1);
      LastStep(q.ordseq, q.pre, q.post, q.place, q.started, r);
      AtUpdate(q1.place, Fs(q.orig), Over);
      EndedBarriers(q1.info, q1.place, q1.orig);
    } else {
      SteppedSequence(q, r, err);
    }
  }

  lemma {:induction false} SteppedSafe(q: Queue, r: Rq, err: int)
    requires Safe(q.trace) && !r.Fs?
    ensures Safe(Stepped(q, r, err).trace)
  {
    var item := ItemOf(q.orig, r);
    var t := if err != 0 then q.trace + [Error(item, err)] else q.trace;
    if err != 0 { SafeExtends(q.trace, Error(item, err)); }
    SafeExtends(t, Finish(item));
  }

  lemma {:induction false} SteppedBegins(q: Queue, r: Rq, err: int)
    requires Begins(q) && !r.Fs? && At(q.place, Fs(q.orig)) == Held
    ensures Begins(Stepped(q, r, err))
  {
    AtUpdate(q.place, r, Nowhere);
  }

  /** What the trace of a completed step says about errors. */
  lemma {:induction false} StepErrors(trace: seq<Event>, orig: nat, item: Item, err: int)
    requires item == PreOf(orig) || item == BarOf(orig) || item == PostOf(orig)
    ensures FirstError(trace + [Finish(item)], orig) == FirstError(trace, orig)
    ensures FirstError(trace + [Error(item, err)] + [Finish(item)], orig) ==
            if FirstError(trace, orig) == 0 then err else FirstError(trace, orig)
  {
    FirstErrorLog(trace, Error(item, err), orig);
    FirstErrorLog(trace, Finish(item), orig);
    FirstErrorLog(trace + [Error(item, err)], Finish(item), orig);
  }

  lemma {:induction false} SteppedInTrace(q: Queue, r: Rq, err: int)
    requires InTrace(q) && q.ordseq != 0 && !r.Fs?
    ensures InTrace(Stepped(q, r, err))
  {
    var item := ItemOf(q.orig, r);
    var q' := Stepped(q, r, err);
    StepErrors(q.trace, q.orig, item, err);
    assert Finish(item) in q'.trace && forall e :: e in q.trace ==> e in q'.trace;
    assert q'.orderr == FirstError(q'.trace, q.orig);
    match r
    case Pre => assert q'.ordseq & BAR == q.ordseq & BAR && q'.ordseq & POSTFLUSH == q.ordseq & POSTFLUSH;
    case Bar => assert q'.ordseq & PREFLUSH == q.ordseq & PREFLUSH && q'.ordseq & POSTFLUSH == q.ordseq & POSTFLUSH;
    case Post => assert q'.ordseq & BAR == q.ordseq & BAR && q'.ordseq & PREFLUSH == q.ordseq & PREFLUSH;
  }

  lemma {:induction false} SteppedOvers(q: Queue, r: Rq, err: int)
    requires Overs(q.info, q.place, q.trace) && Submits(q.info, q.trace) && !r.Fs?
    ensures var q' := Stepped(q, r, err); Overs(q'.info, q'.place, q'.trace) && Submits(q'.info, q'.trace)
  {
    AtUpdate(q.place, r, Nowhere);
  }

  lemma {:induction false} SteppedHistory(q: Queue, r: Rq, err: int)
    requires History(q) && q.ordseq != 0 && !r.Fs? && At(q.place, Fs(q.orig)) == Held
    ensures History(Stepped(q, r, err))
  {
    SteppedSafe(q, r, err);
    SteppedBegins(q, r, err);
    SteppedInTrace(q, r, err);
    SteppedOvers(q, r, err);
  }

  lemma {:induction false} ReportSafe(q: Queue)
    requires History(q) && q.ordseq == 0x1F && At(q.place, Fs(q.orig)) == Held && Drained(q.orig, q.place)
    ensures SafeEvent(q.trace, Report(q.orig, q.orderr))
  {
    DrainedInTrace(q);
    assert End(q.orig) !in q.trace;
  }

  lemma {:induction false} EndedOvers(q: Queue)
    requires Domain(q.info, q.place) && At(q.place, Fs(q.orig)) == Held && Overs(q.info, q.place, q.trace)
    ensures Overs(q.info, Ended(q).place, Ended(q).trace)
  {
    AtUpdate(q.place, Fs(q.orig), Over);
    assert IsBarrier(q.info, Fs(q.orig));
  }

  lemma {:induction false} EndedSafe(q: Queue)
    requires History(q) && q.ordseq == 0x1F && At(q.place, Fs(q.orig)) == Held && Drained(q.orig, q.place)
    ensures Safe(Ended(q).trace)
  {
    ReportSafe(q);
    var b, t := q.orig, q.trace;
    SafeExtends(t, Report(b, q.orderr));
    assert SafeEvent(t + [Report(b, q.orderr)], End(b)) by {
      assert End(b) !in t;
      assert Report(b, q.orderr) in t + [Report(b, q.orderr)];
    }
    SafeExtends(t + [Report(b, q.orderr)], End(b));
  }

  lemma {:induction false} EndedBegins(q: Queue)
    requires Domain(q.info, q.place) && At(q.place, Fs(q.orig)) == Held && Begins(q)
    ensures Begins(Ended(q))
  {
    AtUpdate(q.place, Fs(q.orig), Over);
  }

  lemma {:induction false} EndedHistory(q: Queue)
    requires History(q) && q.ordseq == 0x1F && At(q.place, Fs(q.orig)) == Held && Drained(q.orig, q.place)
    requires Domain(q.info, q.place)
    ensures History(Ended(q))
  {
    EndedSafe(q);
    EndedOvers(q);
    EndedBegins(q);
  }

  lemma {:induction false} CompleteProxyHistory(q: Queue, r: Rq, err: int)
    requires Structure(q) && Sequence(q) && History(q) && At(q.place, r) == Driver && !r.Fs?
    ensures History(Complete(q, r, err))
  {
    ProxyDue(q, r);
    CompleteProxyIs(q, r, err);
    SteppedHistory(q, r, err);
    if q.ordseq | SeqBit(r) == 0x1F {
      SteppedStructure(q, r, err);
      AtUpdate(q.place, r, Nowhere);
      EndedHistory(Stepped(q, r, err));
    }
  }

  // ---------------------------------------------------------------- refusing a barrier

  lemma {:induction false} RejectBarriers(info: seq<Info>, place: map<Rq, Place>, started: set<Rq>, b: nat)
    requires Barriers(info, place) && Domain(info, place) && StartedOk(info, place, started)
    requires At(place, Fs(b)) == Queued && IsBarrier(info, Fs(b))
    requires forall c: nat :: c < b && IsBarrier(info, Fs(c)) ==> At(place, Fs(c)) == Over
    ensures Barriers(info, place[Fs(b) := Over]) && Domain(info, place[Fs(b) := Over])
    ensures StartedOk(info, place[Fs(b) := Over], started)
  {
    AtUpdate(place, Fs(b), Over);
    var place' := place[Fs(b) := Over];
    forall c: nat, x: nat | c < |info| && info[c].barrier ensures Separated(info, place', c, x) {
      assert Separated(info, place, c, x);
      assert c < b ==> IsBarrier(info, Fs(c));
    }
  }

  lemma {:induction false} RejectKeeps(q: Queue)
    requires Structure(q) && Sequence(q) && Enabled(q, DoReject)
    ensures Structure(Reject(q)) && Sequence(Reject(q))
  {
    var b := q.head[0].id;
    forall c: nat | c < b && IsBarrier(q.info, Fs(c)) ensures At(q.place, Fs(c)) == Over {
      AtTheHead(q, c);
      assert Separated(q.info, q.place, c, c);
    }
    assert RemoveAt(q.head, 0) == q.head[1..];
    assert At(q.place, q.head[0]) == Queued;
    HeadRemove(q.head, q.place, 0, Over);
    OrderRemove(q.info, q.head, 0);
    RejectBarriers(q.info, q.place, q.started, b);
    FlightSame(q.place, Fs(b), Over);
    AtUpdate(q.place, Fs(b), Over);
  }

  lemma {:induction false} RejectSafe(q: Queue)
    requires HeadOk(q.head, q.place) && History(q) && Enabled(q, DoReject)
    ensures Safe(Reject(q).trace)
  {
    var b := q.head[0].id;
    assert At(q.place, Fs(b)) == Queued;
    assert SafeEvent(q.trace, Report(b, -EOPNOTSUPP));
    SafeExtends(q.trace, Report(b, -EOPNOTSUPP));
    var t := q.trace + [Report(b, -EOPNOTSUPP)];
    assert SafeEvent(t, End(b)) by {
      assert End(b) !in q.trace;
      assert Report(b, -EOPNOTSUPP) in t;
    }
    SafeExtends(t, End(b));
  }

  lemma {:induction false} RejectOvers(q: Queue)
    requires Overs(q.info, q.place, q.trace) && Enabled(q, DoReject)
    ensures Overs(q.info, Reject(q).place, Reject(q).trace)
  {
    AtUpdate(q.place, q.head[0], Over);
  }

  lemma {:induction false} RejectBegins(q: Queue)
    requires Begins(q) && Enabled(q, DoReject)
    ensures Begins(Reject(q))
  {
    AtUpdate(q.place, q.head[0], Over);
  }

  lemma {:induction false} RejectHistory(q: Queue)
    requires HeadOk(q.head, q.place) && History(q) && Enabled(q, DoReject)
    ensures History(Reject(q))
  {
    RejectSafe(q);
    RejectOvers(q);
    RejectBegins(q);
  }

  // ---------------------------------------------------------------- the theorem

  lemma {:induction false} SubmitHistory(q: Queue, a: Action)
    requires Structure(q) && History(q) && (a.DoSubmitSort? || a.DoSubmitBack?) && Enabled(q, a)
    ensures History(Step(q, a))
  {
    match a
    case DoSubmitSort => HistorySubmits(q, Info(q.ordcolor, false), Sched);
    case DoSubmitBack(barrier) =>
      HistorySubmits(q, Info(q.ordcolor, barrier), Queued);
      var q1 := Log(q.(info := q.info + [Info(q.ordcolor, barrier)], place := q.place[Fs(|q.info|) := Queued]),
                    Submit(|q.info|, barrier));
      HistoryMoves(q1, SubmitBack(q, barrier));
  }

  lemma {:induction false} MoveHistory(q: Queue, a: Action)
    requires Structure(q) && Sequence(q) && History(q) && (a.DoDispatch? || a.DoDequeue?) && Enabled(q, a)
    ensures History(Step(q, a))
  {
    match a
    case DoDispatch(id, k) =>
      AtUpdate(q.place, Fs(id), Queued);
      HistoryMoves(q, Dispatch(q, id, k));
    case DoDequeue(k) =>
      AtUpdate(q.place, q.head[k], Driver);
      HistoryMoves(q, Dequeue(q, k));
  }

  lemma {:induction false} DriverKeepsOrder(q: Queue, a: Action)
    requires Structure(q) && Sequence(q) && Enabled(q, a) && InColor(q, a)
    requires a.DoIssue? || a.DoDequeue? || a.DoRequeue? || a.DoComplete?
    ensures Structure(Step(q, a)) && Sequence(Step(q, a))
  {
    match a
    case DoIssue => IssueStructure(q); IssueSequence(q);
    case DoDequeue(k) => DequeueStructure(q, k); DequeueSequence(q, k);
    case DoRequeue(r) => RequeueStructure(q, r); RequeueSequence(q, r);
    case DoComplete(r, err) => if r.Fs? { CompleteFsKeeps(q, r.id, err); } else { CompleteProxyKeeps(q, r, err); }
  }

  lemma {:induction false} StepKeepsOrder(q: Queue, a: Action)
    requires Structure(q) && Sequence(q) && Enabled(q, a) && InColor(q, a)
    ensures Structure(Step(q, a)) && Sequence(Step(q, a))
  {
    match a
    case DoSubmitSort => SubmitSortStructure(q); SubmitSortSequence(q);
    case DoSubmitBack(barrier) => SubmitBackStructure(q, barrier); SubmitBackSequence(q, barrier);
    case DoDispatch(id, k) => DispatchStructure(q, id, k); DispatchSequence(q, id, k);
    case DoStart => StartStructure(q); StartSequence(q);
    case DoReject => RejectKeeps(q);
    case DoMode(m) =>
    case _ => DriverKeepsOrder(q, a);
  }

  lemma {:induction false} StepKeepsHistory(q: Queue, a: Action)
    requires Inv(q) && Enabled(q, a) && InColor(q, a)
    ensures History(Step(q, a))
  {
    match a
    case DoSubmitSort => SubmitHistory(q, a);
    case DoSubmitBack(_) => SubmitHistory(q, a);
    case DoDispatch(_, _) => MoveHistory(q, a);
    case DoStart => StartHistory(q);
    case DoReject => RejectHistory(q);
    case DoIssue => IssueHistory(q);
    case DoDequeue(_) => MoveHistory(q, a);
    case DoRequeue(r) => RequeueHistory(q, r);
    case DoComplete(r, err) => if r.Fs? { CompleteFsHistory(q, r.id, err); } else { CompleteProxyHistory(q, r, err); }
    case DoMode(m) => HistoryMoves(q, q.(mode := m));
  }

  /** Every step keeps the invariant. */
  lemma {:induction false} StepKeeps(q: Queue, a: Action)
    requires Inv(q) && Enabled(q, a) && InColor(q, a)
    ensures Inv(Step(q, a))
  {
    StepKeepsOrder(q, a);
    StepKeepsHistory(q, a);
  }

  /** `qs` is a run: it starts with an idle queue and follows the actions `acts`. */
  ghost predicate Run(qs: seq<Queue>, acts: seq<Action>) {
    && |qs| == |acts| + 1
    && qs[0] == Init(qs[0].mode)
    && forall i {:trigger acts[i]} :: 0 <= i < |acts| ==> Enabled(qs[i], acts[i]) && qs[i + 1] == Step(qs[i], acts[i])
  }

  /** The driver keeps to the colours throughout the first `n` steps of the run. */
  ghost predicate Guarded(qs: seq<Queue>, acts: seq<Action>, n: nat)
    requires n <= |acts| < |qs|
  {
    forall i {:trigger acts[i]} :: 0 <= i < n ==> InColor(qs[i], acts[i])
  }

  lemma {:induction false} RunKeeps(qs: seq<Queue>, acts: seq<Action>, n: nat)
    requires Run(qs, acts) && n <= |acts| && Guarded(qs, acts, n)
    ensures Inv(qs[n])
  {
    if n == 0 {
      assert InDriver(map[]) == {};
    } else {
      RunKeeps(qs, acts, n - 1);
      StepKeeps(qs[n - 1], acts[n - 1]);
    }
  }

  /** Barrier safety: whatever the file systems, the I/O scheduler and the driver do, the trace
      of a run in which the driver keeps to the colours obeys every ordering rule. */
  lemma {:induction false} BarrierSafety(qs: seq<Queue>, acts: seq<Action>)
    requires Run(qs, acts) && Guarded(qs, acts, |acts|)
    ensures Safe(qs[|acts|].trace)
  {
    RunKeeps(qs, acts, |acts|);
  }

  // ---------------------------------------------------------------- when the driver need not look at colours

  /** No barrier is refused while a request is in flight. */
  ghost predicate Quiet(q: Queue, a: Action) { a.DoReject? ==> q.inFlight == 0 }

  /** What was submitted before a barrier that is over is over. */
  ghost predicate Orderly(info: seq<Info>, place: map<Rq, Place>) {
    forall c: nat, x: nat {:trigger info[c], At(place, Fs(x))} ::
      c < |info| && info[c].barrier && At(place, Fs(c)) == Over && x < c ==> At(place, Fs(x)) == Over
  }

  /** A request from before the barrier waits for the drain. */
  lemma {:induction false} EarlierDrains(q: Queue, x: nat)
    requires Domain(q.info, q.place) && Colors(q.info, q.ordcolor) && Barriers(q.info, q.place)
    requires Orderly(q.info, q.place)
    requires At(q.place, Fs(q.orig)) == Held && x < q.orig && At(q.place, Fs(x)) != Over
    ensures ReqSeq(q.info, q.orig, Fs(x)) == DRAIN
  {
    assert IsBarrier(q.info, Fs(q.orig));
    forall c: nat | x <= c < q.orig ensures !q.info[c].barrier {
      assert !Separated(q.info, q.place, c, q.orig) || At(q.place, Fs(c)) == Over;
      assert !(q.info[c].barrier && At(q.place, Fs(c)) == Over && At(q.place, Fs(x)) != Over);
    }
    SameColor(q.info, q.ordcolor, x, q.orig);
  }

  /** One request moves; one that is over stays over, and a barrier becomes so only after all before it. */
  lemma {:induction false} OrderlyMoves(info: seq<Info>, place: map<Rq, Place>, r: Rq, p: Place)
    requires Orderly(info, place) && At(place, r) != Over
    requires p == Over ==> !IsBarrier(info, r) || Drained(r.id, place)
    ensures Orderly(info, place[r := p])
  {
    AtUpdate(place, r, p);
  }

  lemma {:induction false} OrderlyStarts(q: Queue)
    requires Orderly(q.info, q.place) && HeadOk(q.head, q.place) && Enabled(q, DoStart)
    ensures Orderly(StartOrdered(q).info, StartOrdered(q).place)
  {
    StartPlaces(q);
    assert At(q.place, q.head[0]) == Queued;
  }

  lemma {:induction false} OrderlyFsCompletes(q: Queue, x: nat, err: int)
    requires Structure(q) && Sequence(q) && Orderly(q.info, q.place) && At(q.place, Fs(x)) == Driver
    ensures Orderly(Complete(q, Fs(x), err).info, Complete(q, Fs(x), err).place)
  {
    var q1 := Released(q, Fs(x), err);
    assert Orderly(q1.info, q1.place) by {
      NotBarrier(q, x);
      OrderlyMoves(q.info, q.place, Fs(x), Over);
    }
    if q.ordseq != 0 {
      assert DrainCheck(q1).place == q1.place && DrainCheck(q1).info == q1.info by {
        StillDraining(q, x);
        ReleasedBits(q, x, err);
        DrainBits(q1);
      }
    }
  }

  lemma {:induction false} OrderlyCompletes(q: Queue, r: Rq, err: int)
    requires Structure(q) && Sequence(q) && Orderly(q.info, q.place) && At(q.place, r) == Driver && !r.Fs?
    ensures Orderly(Complete(q, r, err).info, Complete(q, r, err).place)
  {
    OrderlyMoves(q.info, q.place, r, Nowhere);
    ProxyDue(q, r);
    CompleteProxyIs(q, r, err);
    AtUpdate(q.place, r, Nowhere);
    OrderlyMoves(q.info, q.place[r := Nowhere], Fs(q.orig), Over);
  }

  lemma {:induction false} OrderlySubmits(info: seq<Info>, place: map<Rq, Place>, x: Info, p: Place)
    requires Orderly(info, place) && Domain(info, place) && p != Over
    ensures Orderly(info + [x], place[Fs(|info|) := p])
  {
    AtUpdate(place, Fs(|info|), p);
    assert At(place, Fs(|info|)) == Nowhere;
  }

  lemma {:induction false} OrderlyRejects(q: Queue)
    requires Structure(q) && Sequence(q) && Orderly(q.info, q.place) && Enabled(q, DoReject) && q.inFlight == 0
    ensures Orderly(Reject(q).info, Reject(q).place)
  {
    forall x: nat | x < q.head[0].id ensures At(q.place, Fs(x)) == Over {
      AtTheHead(q, x);
      FlightNone(q.place, Fs(x));
    }
    assert At(q.place, q.head[0]) == Queued;
    OrderlyMoves(q.info, q.place, q.head[0], Over);
  }

  lemma {:induction false} OrderlyStep(q: Queue, a: Action)
    requires Inv(q) && Orderly(q.info, q.place) && Enabled(q, a) && Quiet(q, a)
    ensures Orderly(Step(q, a).info, Step(q, a).place)
  {
    match a
    case DoSubmitSort => OrderlySubmits(q.info, q.place, Info(q.ordcolor, false), Sched);
    case DoSubmitBack(barrier) => OrderlySubmits(q.info, q.place, Info(q.ordcolor, barrier), Queued);
    case DoDispatch(id, k) => OrderlyMoves(q.info, q.place, Fs(id), Queued);
    case DoStart => OrderlyStarts(q);
    case DoReject => OrderlyRejects(q);
    case DoIssue =>
    case DoDequeue(k) => OrderlyMoves(q.info, q.place, q.head[k], Driver);
    case DoRequeue(r) => OrderlyMoves(q.info, q.place, r, Queued);
    case DoComplete(r, err) => if r.Fs? { OrderlyFsCompletes(q, r.id, err); } else { OrderlyCompletes(q, r, err); }
    case DoMode(_) =>
  }

  /** Then what the driver holds has the colour of the barrier in progress. */
  lemma {:induction false} OrderlyInColor(q: Queue, a: Action)
    requires Inv(q) && Orderly(q.info, q.place) && Enabled(q, a)
    ensures InColor(q, a)
  {
    if a.DoRequeue? && a.r.Fs? && q.ordseq != 0 {
      assert Separated(q.info, q.place, q.orig, a.r.id);
      EarlierDrains(q, a.r.id);
    }
  }

  lemma {:induction false} QuietStep(q: Queue, a: Action)
    requires Inv(q) && Orderly(q.info, q.place) && Enabled(q, a) && Quiet(q, a)
    ensures InColor(q, a) && Inv(Step(q, a)) && Orderly(Step(q, a).info, Step(q, a).place)
  {
    OrderlyInColor(q, a);
    StepKeeps(q, a);
    OrderlyStep(q, a);
  }

  /** The state is as a run without refusals in flight keeps it. */
  ghost predicate InvOrderly(q: Queue) { Inv(q) && Orderly(q.info, q.place) }

  lemma {:induction false} StartsOrderly(q: Queue)
    requires q == Init(q.mode)
    ensures InvOrderly(q)
  {
    assert InDriver(map[]) == {};
  }

  lemma {:induction false} QuietKeeps(qs: seq<Queue>, acts: seq<Action>, n: nat)
    requires Run(qs, acts) && n <= |acts| && forall i {:trigger acts[i]} :: 0 <= i < n ==> Quiet(qs[i], acts[i])
    ensures Guarded(qs, acts, n) && InvOrderly(qs[n])
  {
    if n == 0 {
      StartsOrderly(qs[0]);
    } else {
      QuietKeeps(qs, acts, n - 1);
      QuietStep(qs[n - 1], acts[n - 1]);
    }
  }

  /** With no refusals while requests are in flight, in particular with none at all, every driver keeps to the
      colours. */
  lemma {:induction false} QuietSafety(qs: seq<Queue>, acts: seq<Action>)
    requires Run(qs, acts) && forall i {:trigger acts[i]} :: 0 <= i < |acts| ==> Quiet(qs[i], acts[i])
    ensures Guarded(qs, acts, |acts|) && Safe(qs[|acts|].trace)
  {
    QuietKeeps(qs, acts, |acts|);
  }

  // ---------------------------------------------------------------- no assertion of the code fails

  /** What the code assumes of itself, for the action about to be taken: blk_do_ordered's WARN_ON,
      elv_completed_request's use of the first queued request, and blk_ordered_complete_seq's BUG_ON. */
  ghost predicate NoBug(q: Queue, a: Action)
    requires Enabled(q, a)
  {
    && (a.DoIssue? && q.ordseq != 0 ==> ReqSeq(q.info, q.orig, q.head[0]) >= CurSeq(q.ordseq))
    && (a.DoComplete? ==>
          var q1 := Released(q, a.r, a.err);
          && (q1.ordseq != 0 && q1.inFlight == 0 && CurSeq(q1.ordseq) == DRAIN ==> |q1.head| > 0)
          && (!a.r.Fs? ==> q1.ordseq & SeqBit(a.r) == 0))
  }

  lemma {:induction false} IssueInTurn(q: Queue)
    requires Structure(q) && Sequence(q) && Enabled(q, DoIssue) && q.ordseq != 0
    ensures ReqSeq(q.info, q.orig, q.head[0]) == CurSeq(q.ordseq)
  {
    OfferedIsDue(q);
    CurSeqBits(q.ordseq);
    assert At(q.place, q.head[0]) == Queued;
    if q.head[0].Fs? {
      assert q.ordseq & DRAIN == 0;
    }
  }

  lemma {:induction false} SubmitSortKeeps(q: Queue)
    requires Inv(q)
    ensures Inv(SubmitSort(q))
  {
    StepKeeps(q, DoSubmitSort);
  }

  lemma {:induction false} NoBugs(q: Queue, a: Action)
    requires Inv(q) && Enabled(q, a)
    ensures NoBug(q, a)
  {
    if a.DoComplete? {
      if !a.r.Fs? { ProxyDue(q, a.r); }
      else if q.ordseq != 0 { StillDraining(q, a.r.id); }
    } else if a.DoIssue? && q.ordseq != 0 {
      IssueInTurn(q);
    }
  }

  // ---------------------------------------------------------------- the queue never gets stuck

  lemma {:induction false} UnorderedHead(q: Queue)
    requires |q.head| > 0 && q.ordseq == 0
    ensures Enabled(q, DoStart) || Enabled(q, DoReject) || Enabled(q, DoIssue)
  {
  }

  /** With no earlier request left, the next step of the sequence is the first in the queue. */
  lemma {:induction false} SequenceAtHead(q: Queue)
    requires Structure(q) && Sequence(q) && q.ordseq != 0 && |q.head| > 0 && Rank(q.orig, q.head[0]) > 1
    requires !Busy(q.place) && q.inFlight == 0
    ensures ReqSeq(q.info, q.orig, q.head[0]) == CurSeq(q.ordseq)
  {
    CurSeqBits(q.ordseq);
    assert q.ordseq & PREFLUSH == 0 ==> Pre in q.head;
    assert q.ordseq & BAR == 0 ==> Bar in q.head;
    assert q.ordseq & POSTFLUSH == 0 ==> Post in q.head;
    assert At(q.place, q.head[0]) == Queued;
  }

  lemma {:induction false} OfferedWhenIdle(q: Queue)
    requires Structure(q) && Sequence(q) && q.ordseq != 0 && |q.head| > 0 && q.inFlight == 0
    requires !Busy(q.place)
    ensures Offered(q)
  {
    CurSeqBits(q.ordseq);
    assert At(q.place, q.head[0]) == Queued;
    if Rank(q.orig, q.head[0]) != 1 {
      SequenceAtHead(q);
    }
  }

  lemma {:induction false} OrderedHead(q: Queue)
    requires Structure(q) && Sequence(q) && q.ordseq != 0 && |q.head| > 0
    ensures Busy(q.place) || Enabled(q, DoIssue)
  {
    if !Busy(q.place) {
      NoneInDriver(q.place);
      OfferedWhenIdle(q);
    }
  }

  /** As long as a request waits on the queue, the driver holds one or is about to be given one. */
  lemma {:induction false} NeverStuck(q: Queue)
    requires Inv(q) && |q.head| > 0
    ensures Busy(q.place) || Enabled(q, DoStart) || Enabled(q, DoReject) || Enabled(q, DoIssue)
  {
    if q.ordseq == 0 {
      UnorderedHead(q);
    } else {
      OrderedHead(q);
    }
  }

  // ---------------------------------------------------------------- what actions lead to

  /** `q'` is what the actions lead to from `q`. */
  ghost predicate Leads(q: Queue, acts: seq<Action>, q': Queue)
    decreases |acts|
  {
    if acts == [] then q' == q
    else Enabled(q, acts[0]) && Leads(Step(q, acts[0]), acts[1..], q')
  }

  lemma {:induction false} LeadsOn(q: Queue, acts: seq<Action>, q1: Queue, acts1: seq<Action>, q2: Queue)
    requires Leads(q, acts, q1) && Leads(q1, acts1, q2)
    ensures Leads(q, acts + acts1, q2)
    decreases |acts|
  {
    if acts == [] {
      assert acts + acts1 == acts1;
    } else {
      LeadsOn(Step(q, acts[0]), acts[1..], q1, acts1, q2);
      assert (acts + acts1)[1..] == acts[1..] + acts1;
    }
  }

  lemma {:induction false} One(q: Queue, a: Action)
    requires Enabled(q, a)
    ensures Leads(q, [a], Step(q, a))
  {
    assert Leads(Step(q, a), [a][1..], Step(q, a));
  }

  /** What blk_do_ordered does to the queue. */
  ghost function Ordered(q: Queue): Queue {
    if Enabled(q, DoReject) then Reject(q) else if Enabled(q, DoStart) then StartOrdered(q) else q
  }

  lemma {:induction false} OrderedKeeps(q: Queue)
    requires Inv(q)
    ensures Inv(Ordered(q))
  {
    if Enabled(q, DoReject) {
      StepKeeps(q, DoReject);
    } else if Enabled(q, DoStart) {
      StepKeeps(q, DoStart);
    }
  }

  lemma {:induction false} OrderedLeads(q: Queue) returns (acts: seq<Action>)
    ensures Leads(q, acts, Ordered(q))
  {
    if Enabled(q, DoReject) {
      One(q, DoReject);
      acts := [DoReject];
    } else if Enabled(q, DoStart) {
      One(q, DoStart);
      acts := [DoStart];
    } else {
      acts := [];
    }
  }

  lemma {:induction false} OrderedOn(start: Queue, before: seq<Action>, q: Queue) returns (acts: seq<Action>)
    requires Leads(start, before, q)
    ensures Leads(start, acts, Ordered(q))
  {
    var now := OrderedLeads(q);
    LeadsOn(start, before, q, now, Ordered(q));
    acts := before + now;
  }
}
