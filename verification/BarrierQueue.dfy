// The barrier code as ll_rw_blk.c and elevator.c run it: an object whose methods edit queue_head, ordseq and the
// counters in place. Each method is proved to take steps of the model in module Barrier. The methods that the file
// systems, the I/O scheduler and the driver call also keep the invariant of that module, GiveBack for requests that
// meet the guard on colours; the others are parts of these.
module BarrierQueue {
  import opened Barrier

  class RequestQueue {
    var info: seq<Info>
    var head: seq<Rq>
    var started: set<Rq>
    var soft: set<Rq>
    var inFlight: int
    var ordseq: bv8
    var ordcolor: bool
    var orig: nat
    var mode: Mode
    var orderr: int
    // What no field of the queue records: who holds each request, and what has happened.
    ghost var place: map<Rq, Place>
    ghost var pre: bool
    ghost var post: bool
    ghost var trace: seq<Event>

    ghost function State(): Queue
      reads this
    {
      Queue(info, place, head, started, soft, inFlight, ordseq, ordcolor, orig, mode, orderr, pre, post, trace)
    }

    constructor (m: Mode)
      ensures State() == Init(m) && Inv(State())
    {
      info, head, started, soft := [], [], {}, {};
      inFlight, ordseq, ordcolor, orig, mode, orderr := 0, 0, false, 0, m, 0;
      place, pre, post, trace := map[], false, false, [];
      new;
      assert InDriver(map[]) == {};
    }

    /** The request gets its colour and goes to the scheduler */
    method HandToScheduler()
      modifies `info, `place, `trace
      ensures State() == SubmitSort(old(State()))
    {
      place := place[Fs(|info|) := Sched];
      trace := trace + [Submit(|info|, false)];
      info := info + [Info(ordcolor, false)];
    }

    /** __elv_add_request with a sorted insertion */
    method AddSorted()
      requires Inv(State())
      modifies `info, `place, `trace
      ensures State() == SubmitSort(old(State())) && Inv(State())
    {
      SubmitSortKeeps(State());
      HandToScheduler();
    }

    /** __elv_add_request with a back insertion; a barrier always comes here */
    method AddBack(barrier: bool)
      requires Inv(State()) && Enabled(State(), DoSubmitBack(barrier))
      modifies `info, `ordcolor, `soft, `head, `place, `trace
      ensures State() == SubmitBack(old(State()), barrier) && Inv(State())
    {
      StepKeeps(State(), DoSubmitBack(barrier));
      Append(barrier);
    }

    method Append(barrier: bool)
      modifies `info, `ordcolor, `soft, `head, `place, `trace
      ensures State() == SubmitBack(old(State()), barrier)
    {
      var id := |info|;
      place := place[Fs(id) := Queued];
      trace := trace + [Submit(id, barrier)];
      info := info + [Info(ordcolor, barrier)];
      if barrier {
        ordcolor := !ordcolor;
      }
      soft := soft + {Fs(id)};
      head := head + [Fs(id)];
    }

    /** The I/O scheduler moves a request to position k, in front of no fence */
    method MoveIn(id: nat, k: nat)
      requires Inv(State()) && Enabled(State(), DoDispatch(id, k))
      modifies `head, `place
      ensures State() == Dispatch(old(State()), id, k) && Inv(State())
    {
      StepKeeps(State(), DoDispatch(id, k));
      head := head[..k] + [Fs(id)] + head[k..];
      place := place[Fs(id) := Queued];
    }

    /** blk_queue_ordered */
    method SetOrdered(m: Mode)
      requires Inv(State())
      modifies `mode
      ensures State() == old(State()).(mode := m) && Inv(State())
    {
      StepKeeps(State(), DoMode(m));
      mode := m;
    }

    /** elv_dequeue_request */
    method TakeOff(k: nat)
      requires Inv(State()) && Enabled(State(), DoDequeue(k))
      modifies `head, `inFlight, `place
      ensures State() == Dequeue(old(State()), k) && Inv(State())
    {
      StepKeeps(State(), DoDequeue(k));
      Unlink(k);
    }

    method Unlink(k: nat)
      requires k < |head|
      modifies `head, `inFlight, `place
      ensures State() == Dequeue(old(State()), k)
    {
      var r := head[k];
      head := head[..k] + head[k + 1..];
      if IsFs(r) {
        inFlight := inFlight + 1;
      }
      place := place[r := Driver];
    }

    /** The first part of blk_ordered_complete_seq: the first error, and the bit */
    method Record(bit: bv8, err: int)
      modifies `orderr, `ordseq
      ensures State() == Recorded(old(State()), bit, err)
    {
      if err != 0 && orderr == 0 {
        orderr := err;
      }
      ordseq := ordseq | bit;
    }

    /** The last part: the original barrier ends with the error that was kept */
    method EndBarrier()
      modifies `ordseq, `place, `trace
      ensures State() == Ended(old(State()))
    {
      ordseq := 0;
      place := place[Fs(orig) := Over];
      trace := trace + [Report(orig, orderr)] + [End(orig)];
    }

    /** blk_ordered_complete_seq */
    method CompleteSequence(bit: bv8, err: int)
      modifies `orderr, `ordseq, `place, `trace
      ensures State() == CompleteSeq(old(State()), bit, err)
    {
      Record(bit, err);
      if CurSeq(ordseq) != DONE {
        return;
      }
      EndBarrier();
    }

    /** elv_insert with ELEVATOR_INSERT_FRONT, on a request embedded in the queue */
    method InsertFront(r: Rq)
      modifies `started, `soft, `head, `place
      ensures State() == PushFront(old(State()), r)
    {
      started := started - {r};
      soft := soft + {r};
      head := [r] + head;
      place := place[r := Queued];
    }

    /** queue_flush, or its absence */
    method QueueFlush(r: Rq, wanted: bool)
      modifies `started, `soft, `head, `place, `ordseq
      ensures State() == AddFlush(old(State()), r, wanted)
    {
      if wanted {
        InsertFront(r);
      } else {
        ordseq := ordseq | SeqBit(r);
      }
    }

    /** start_ordered: returns the request the driver may have at once, if any */
    method Start() returns (rq: seq<Rq>)
      requires Enabled(State(), DoStart)
      modifies this
      ensures State() == StartOrdered(old(State()))
      ensures |head| > 0 && rq == if old(inFlight) == 0 then [head[0]] else []
    {
      Hold();
      rq := Stack();
      trace := trace + [Begin(orig, pre, post)];
    }

    /** start_ordered's first half: the barrier is set aside */
    method Hold()
      requires Enabled(State(), DoStart)
      modifies `orderr, `ordseq, `orig, `head, `place, `pre, `post
      ensures State() == SetAside(old(State()))
    {
      orderr := 0;
      ordseq := ordseq | STARTED;
      orig := head[0].id;
      head := head[1..];
      place, pre, post := place[Fs(orig) := Held], mode.PreFlush(), mode.PostFlush();
    }

    /** start_ordered's second half: the sequence is queued, in reverse order */
    method Stack() returns (rq: seq<Rq>)
      requires pre == mode.PreFlush() && post == mode.PostFlush()
      modifies `started, `soft, `head, `place, `ordseq
      ensures State() == StackSequence(old(State()))
      ensures |head| > 0 && rq == if old(inFlight) == 0 then [head[0]] else []
    {
      QueueFlush(Post, mode.PostFlush());
      InsertFront(Bar);
      QueueFlush(Pre, mode.PreFlush());
      rq := [];
      if inFlight == 0 {
        ordseq := ordseq | DRAIN;
        rq := [if mode.PreFlush() then Pre else Bar];
      }
    }

    /** The barrier at the head is ended with -EOPNOTSUPP. */
    method Refuse()
      requires |head| > 0 && head[0].Fs?
      modifies `head, `place, `trace
      ensures State() == Reject(old(State()))
    {
      var b := head[0].id;
      head := head[1..];
      place := place[Fs(b) := Over];
      trace := trace + [Report(b, -EOPNOTSUPP)] + [End(b)];
    }

    /** blk_do_ordered on the first queued request; `more` says that it was consumed and the caller
        has to look again, `rq` is empty when the driver has to wait */
    method DoOrdered() returns (more: bool, rq: seq<Rq>)
      requires |head| > 0 && Inv(State())
      modifies this
      ensures (more <==> old(Enabled(State(), DoReject))) && (more ==> |head| < |old(head)|) && (!more ==> |head| > 0)
      ensures State() == Ordered(old(State())) && Inv(State())
      ensures rq == if !more && Offered(State()) then [head[0]] else []
    {
      OrderedKeeps(State());
      more, rq := Order();
    }

    method Order() returns (more: bool, rq: seq<Rq>)
      requires |head| > 0
      modifies this
      ensures (more <==> old(Enabled(State(), DoReject))) && (more ==> |head| < |old(head)|) && (!more ==> |head| > 0)
      ensures State() == Ordered(old(State()))
      ensures rq == if !more && Offered(State()) then [head[0]] else []
    {
      ghost var q := State();
      var first := head[0];
      var barrier := IsBarrier(info, first);
      if ordseq == 0 {
        if !barrier {
          return false, [first];
        }
        if !mode.NoneMode? {
          rq := Start();
          StartOffers(q);
          return false, rq;
        }
        Refuse();
        return true, [];
      }
      if ReqSeq(info, orig, first) > CurSeq(ordseq) {
        return false, [];
      }
      return false, [first];
    }

    /** __elv_next_request on what is already queued: refused barriers are skipped */
    method Look() returns (rq: seq<Rq>, ghost acts: seq<Action>)
      requires Inv(State())
      modifies this
      ensures Leads(old(State()), acts, State()) && Inv(State())
      ensures rq == if |head| > 0 && Offered(State()) then [head[0]] else []
    {
      rq, acts := [], [];
      while |head| > 0
        invariant Leads(old(State()), acts, State()) && Inv(State())
        decreases |head|
      {
        var more: bool;
        more, rq, acts := LookOnce(old(State()), acts);
        if !more {
          return;
        }
      }
      rq := [];
    }

    /** One turn of its loop */
    method LookOnce(ghost start: Queue, ghost before: seq<Action>)
        returns (more: bool, rq: seq<Rq>, ghost acts: seq<Action>)
      requires |head| > 0 && Inv(State()) && Leads(start, before, State())
      modifies this
      ensures Leads(start, acts, State()) && Inv(State()) && (more ==> |head| < |old(head)|)
      ensures !more ==> rq == if |head| > 0 && Offered(State()) then [head[0]] else []
    {
      acts := OrderedOn(start, before, State());
      more, rq := DoOrdered();
    }

    /** elv_next_request marks what it hands out */
    method HandOut()
      requires |head| > 0
      modifies `started, `trace
      ensures State() == IssueHead(old(State()))
    {
      var r := head[0];
      if r !in started {
        started := started + {r};
        trace := trace + [Issue(ItemOf(orig, r))];
      }
    }

    /** elv_next_request */
    method NextRequest() returns (rq: seq<Rq>, ghost acts: seq<Action>)
      requires Inv(State())
      modifies this
      ensures Leads(old(State()), acts, State()) && Inv(State())
      ensures rq == if |head| > 0 && Offered(State()) then [head[0]] else []
      ensures rq != [] ==> head[0] in started
    {
      rq, acts := Look();
      if rq != [] {
        acts := HandHead(old(State()), acts);
      }
    }

    method HandHead(ghost start: Queue, ghost before: seq<Action>) returns (ghost acts: seq<Action>)
      requires Inv(State()) && Enabled(State(), DoIssue) && Leads(start, before, State())
      modifies `started, `trace
      ensures Leads(start, acts, State()) && Inv(State()) && head[0] in started && Offered(State())
    {
      ghost var q := State();
      One(q, DoIssue);
      StepKeeps(q, DoIssue);
      HandOut();
      LeadsOn(start, before, q, [DoIssue], State());
      acts := before + [DoIssue];
    }

    /** The walk of elv_insert along queue_head: the first entry not earlier than `seqno` */
    method Walk(seqno: bv8) returns (k: nat)
      ensures k == RequeuePos(State(), seqno, 0)
      ensures k <= |head| && forall i :: 0 <= i < k ==> ReqSeq(info, orig, head[i]) < seqno
      ensures k < |head| ==> seqno <= ReqSeq(info, orig, head[k])
    {
      k := 0;
      while k < |head| && seqno > ReqSeq(info, orig, head[k])
        invariant k <= |head| && RequeuePos(State(), seqno, k) == RequeuePos(State(), seqno, 0)
        invariant forall i :: 0 <= i < k ==> ReqSeq(info, orig, head[i]) < seqno
        decreases |head| - k
      {
        k := k + 1;
      }
    }

    /** elv_insert with ELEVATOR_INSERT_REQUEUE */
    method Reinsert(r: Rq)
      modifies `soft, `head, `place
      ensures State() == old(var q := State();
                var p := if q.ordseq == 0 then 0 else RequeuePos(q, ReqSeq(q.info, q.orig, r), 0);
                q.(soft := q.soft + {r}, place := q.place[r := Queued], head := Insert(q.head, p, r)))
    {
      soft := soft + {r};
      place := place[r := Queued];
      var k := 0;
      if ordseq != 0 {
        k := Walk(ReqSeq(info, orig, r));
        SamePos(old(State()), State(), ReqSeq(info, orig, r), 0);
      }
      head := head[..k] + [r] + head[k..];
    }

    /** elv_requeue_request; the invariant is kept if the request meets the guard on colours */
    method GiveBack(r: Rq)
      requires Inv(State()) && Enabled(State(), DoRequeue(r))
      modifies `inFlight, `started, `soft, `head, `place, `trace
      ensures State() == RequeueRq(old(State()), r)
      ensures old(InColor(State(), DoRequeue(r))) ==> Inv(State())
    {
      if InColor(State(), DoRequeue(r)) {
        StepKeeps(State(), DoRequeue(r));
      }
      Return(r);
    }

    method Return(r: Rq)
      modifies `inFlight, `started, `soft, `head, `place, `trace
      ensures State() == RequeueRq(old(State()), r)
    {
      Reinsert(r);
      if IsFs(r) {
        inFlight := inFlight - 1;
      }
      started := started - {r};
      trace := trace + [Requeue(ItemOf(orig, r))];
    }

    /** elv_completed_request's check of the drain */
    method CheckDrain()
      requires ordseq != 0 && inFlight == 0 && CurSeq(ordseq) == DRAIN ==> |head| > 0
      modifies `orderr, `ordseq, `place, `trace
      ensures State() == DrainCheck(old(State()))
    {
      if ordseq != 0 {
        if inFlight == 0 && CurSeq(ordseq) == DRAIN && ReqSeq(info, orig, head[0]) > DRAIN {
          CompleteSequence(DRAIN, 0);
        }
      }
    }

    /** The request leaves the driver. */
    method Release(r: Rq, err: int)
      modifies `inFlight, `started, `place, `trace
      ensures State() == Released(old(State()), r, err)
    {
      ghost var item := ItemOf(orig, r);
      trace := if err != 0 then trace + [Error(item, err)] else trace;
      trace := trace + [Finish(item)];
      place := place[r := if r.Fs? then Over else Nowhere];
      if IsFs(r) {
        inFlight := inFlight - 1;
      }
      started := started - {r};
    }

    /** end_that_request_last on a request the driver holds */
    method EndRequest(r: Rq, err: int)
      requires Inv(State()) && Enabled(State(), DoComplete(r, err))
      modifies this
      ensures State() == Complete(old(State()), r, err) && Inv(State())
    {
      NoBugs(State(), DoComplete(r, err));
      StepKeeps(State(), DoComplete(r, err));
      Release(r, err);
      CheckDrain();
      if !r.Fs? {
        CompleteSequence(SeqBit(r), err);
      }
    }
  }
}
