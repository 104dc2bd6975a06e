// cfq_get_next_prio_level of cfq-iosched.c, for any number of priority levels.
module CfqRotation {
  import opened Lists
  /** cur_end_prio and cur_prio: a place in the rows 0; 0,1; 0,1,2; and so on. */
  datatype Turn = Turn(end: nat, prio: nat)

  predicate Valid(n: nat, t: Turn) { t.prio <= t.end < n }

  /** The place after t; the last row is followed by the first. */
  function After(n: nat, t: Turn): Turn {
    if t.prio < t.end then Turn(t.end, t.prio + 1) else if t.end + 1 < n then Turn(t.end + 1, 0) else Turn(0, 0)
  }

  /** The first place from t on whose level is busy; the rows are gone through to the end and once more from the
      start. */
  function Scan(busy: seq<bool>, t: Turn, wrapped: bool): Option<Turn>
    requires Valid(|busy|, t)
    decreases if wrapped then 0 else 1, |busy| - t.end, t.end - t.prio
  {
    if busy[t.prio] then Some(t)
    else if t.prio < t.end then Scan(busy, Turn(t.end, t.prio + 1), wrapped)
    else if t.end + 1 < |busy| then Scan(busy, Turn(t.end + 1, 0), wrapped)
    else if wrapped then None
    else Scan(busy, Turn(0, 0), true)
  }

  /** The level a call chooses, and where it leaves the rotation. */
  function Choose(busy: seq<bool>, t: Turn): (Option<nat>, Turn)
    requires Valid(|busy|, t)
  {
    var f := Scan(busy, t, false);
    if f.Some? then (Some(f.value.prio), After(|busy|, f.value)) else (None, Turn(0, 0))
  }

  // ---------------------------------------------------------------- what a call chooses

  lemma {:induction false} ScanFinds(busy: seq<bool>, t: Turn, wrapped: bool)
    requires Valid(|busy|, t)
    ensures var f := Scan(busy, t, wrapped); f.Some? ==> Valid(|busy|, f.value) && busy[f.value.prio]
    decreases if wrapped then 0 else 1, |busy| - t.end, t.end - t.prio
  {
    if !busy[t.prio] {
      if t.prio < t.end {
        ScanFinds(busy, Turn(t.end, t.prio + 1), wrapped);
      } else if t.end + 1 < |busy| {
        ScanFinds(busy, Turn(t.end + 1, 0), wrapped);
      } else if !wrapped {
        ScanFinds(busy, Turn(0, 0), true);
      }
    }
  }

  /** A scan that finds nothing has seen all levels from the place on, up to the last. */
  lemma {:induction false} ScanMisses(busy: seq<bool>, t: Turn, wrapped: bool, l: nat)
    requires Valid(|busy|, t) && Scan(busy, t, wrapped).None? && l < |busy|
    requires !wrapped || t.prio <= l || t.end + 1 < |busy|
    ensures !busy[l]
    decreases if wrapped then 0 else 1, |busy| - t.end, t.end - t.prio
  {
    if t.prio < t.end {
      if t.prio != l { ScanMisses(busy, Turn(t.end, t.prio + 1), wrapped, l); }
    } else if t.end + 1 < |busy| {
      ScanMisses(busy, Turn(t.end + 1, 0), wrapped, l);
    } else if !wrapped {
      ScanMisses(busy, Turn(0, 0), true, l);
    }
  }

  /** A call fails exactly when all lists are empty; otherwise it chooses a busy level; the rotation stays in range. */
  lemma {:induction false} ChooseIs(busy: seq<bool>, t: Turn)
    requires Valid(|busy|, t)
    ensures Valid(|busy|, Choose(busy, t).1)
    ensures Choose(busy, t).0.None? <==> forall l :: 0 <= l < |busy| ==> !busy[l]
    ensures Choose(busy, t).0.Some? ==> Choose(busy, t).0.value < |busy| && busy[Choose(busy, t).0.value]
  {
    ScanFinds(busy, t, false);
    if Scan(busy, t, false).None? {
      forall l | 0 <= l < |busy| ensures !busy[l] {
        ScanMisses(busy, t, false, l);
      }
    }
  }

  // ---------------------------------------------------------------- how long a level waits

  /** The places before those of row e. */
  function Rows(e: nat): nat { if e == 0 then 0 else Rows(e - 1) + e }

  lemma {:induction false} RowsIs(e: nat)
    ensures 2 * Rows(e) == e * (e + 1)
  {
    if e > 0 { RowsIs(e - 1); }
  }

  /** From the start of row e to the next place of level l. */
  function RowDistance(n: nat, e: nat, l: nat): nat
    requires e < n && l < n
    decreases n - e
  {
    if l <= e then l else e + 1 + RowDistance(n, e + 1, l)
  }

  /** From t to the next place of level l. */
  function Distance(n: nat, t: Turn, l: nat): nat
    requires Valid(n, t) && l < n
  {
    if t.prio <= l <= t.end then l - t.prio
    else t.end - t.prio + 1 + RowDistance(n, if t.end + 1 < n then t.end + 1 else 0, l)
  }

  lemma {:induction false} OneCloser(n: nat, t: Turn, l: nat)
    requires Valid(n, t) && l < n && t.prio != l
    ensures Valid(n, After(n, t)) && Distance(n, After(n, t), l) == Distance(n, t, l) - 1
  {
  }

  lemma {:induction false} RowDistanceIs(n: nat, e: nat, l: nat)
    requires e < n && l < n
    ensures RowDistance(n, e, l) == if l <= e then l else Rows(l) - Rows(e) + l
    decreases n - e
  {
    if l > e { RowDistanceIs(n, e + 1, l); }
  }

  lemma {:induction false} RowsGrow(a: nat, b: nat)
    requires a <= b
    ensures Rows(a) + (b - a) <= Rows(b) || a == 0
    ensures Rows(a) <= Rows(b) && (a < b ==> Rows(a) + b <= Rows(b))
  {
    if a < b { RowsGrow(a, b - 1); }
  }

  /** No level is further away than one round of all rows. */
  lemma {:induction false} DistanceBound(n: nat, t: Turn, l: nat)
    requires Valid(n, t) && l < n
    ensures Distance(n, t, l) < Rows(n)
  {
    RowsGrow(l, n);
    RowsGrow(t.end, n);
    if !(t.prio <= l <= t.end) {
      if t.end + 1 < n {
        RowDistanceIs(n, t.end + 1, l);
        RowsGrow(t.end + 1, n);
      } else {
        RowDistanceIs(n, 0, l);
      }
    } else {
      RowsGrow(n - 1, n);
    }
  }

  /** A scan does not pass a busy level, and brings it no further away. */
  lemma {:induction false} ScanCloser(busy: seq<bool>, t: Turn, wrapped: bool, l: nat)
    requires Valid(|busy|, t) && l < |busy| && busy[l] && Scan(busy, t, wrapped).Some?
    ensures var f := Scan(busy, t, wrapped).value; Valid(|busy|, f) && Distance(|busy|, f, l) <= Distance(|busy|, t, l)
    decreases if wrapped then 0 else 1, |busy| - t.end, t.end - t.prio
  {
    if !busy[t.prio] {
      OneCloser(|busy|, t, l);
      if t.prio < t.end {
        ScanCloser(busy, Turn(t.end, t.prio + 1), wrapped, l);
      } else if t.end + 1 < |busy| {
        ScanCloser(busy, Turn(t.end + 1, 0), wrapped, l);
      } else if !wrapped {
        ScanCloser(busy, Turn(0, 0), true, l);
      }
    }
  }

  /** A call that chooses another level brings a busy level closer. */
  lemma {:induction false} CallCloser(busy: seq<bool>, t: Turn, l: nat)
    requires Valid(|busy|, t) && l < |busy| && busy[l] && Choose(busy, t).0 != Some(l)
    ensures Valid(|busy|, Choose(busy, t).1) && Distance(|busy|, Choose(busy, t).1, l) < Distance(|busy|, t, l)
  {
    ChooseIs(busy, t);
    ScanCloser(busy, t, false, l);
    OneCloser(|busy|, Scan(busy, t, false).value, l);
  }

  /** A row of calls, whatever happens to the lists in between: which lists are busy, the places, and what is chosen. */
  ghost predicate Calls(n: nat, lists: seq<seq<bool>>, turns: seq<Turn>, picks: seq<Option<nat>>) {
    && |turns| == |lists| + 1 && |picks| == |lists| && Valid(n, turns[0])
    && forall i :: 0 <= i < |lists| ==>
         |lists[i]| == n && Valid(n, turns[i]) && Choose(lists[i], turns[i]).0 == picks[i]
             && Choose(lists[i], turns[i]).1 == turns[i + 1]
  }

  lemma {:induction false} StillWaiting(n: nat, lists: seq<seq<bool>>, turns: seq<Turn>, picks: seq<Option<nat>>,
                                        l: nat, k: nat)
    requires Calls(n, lists, turns, picks) && l < n && k <= |lists|
    requires forall i :: 0 <= i < k ==> |lists[i]| == n && lists[i][l] && picks[i] != Some(l)
    ensures Valid(n, turns[k]) && Distance(n, turns[k], l) + k <= Distance(n, turns[0], l)
  {
    if k > 0 {
      StillWaiting(n, lists, turns, picks, l, k - 1);
      assert picks[k - 1] != Some(l);
      CallCloser(lists[k - 1], turns[k - 1], l);
    }
  }

  /** A level that stays busy is chosen within n (n + 1) / 2 calls, whatever happens to the other lists. */
  lemma {:induction false} ServedInTime(n: nat, lists: seq<seq<bool>>, turns: seq<Turn>, picks: seq<Option<nat>>,
                                        l: nat)
    requires Calls(n, lists, turns, picks) && l < n && 2 * |lists| >= n * (n + 1)
    requires forall i :: 0 <= i < |lists| ==> |lists[i]| == n && lists[i][l]
    ensures exists i :: 0 <= i < |lists| && picks[i] == Some(l)
  {
    if forall i :: 0 <= i < |lists| ==> picks[i] != Some(l) {
      StillWaiting(n, lists, turns, picks, l, |lists|);
      DistanceBound(n, turns[0], l);
      RowsIs(n);
      assert false;
    }
  }

  /** The bound cannot be lowered: from the start the last level is exactly one round away. */
  lemma {:induction false} LastLevelWaits(n: nat)
    requires n > 0
    ensures Distance(n, Turn(0, 0), n - 1) == Rows(n) - 1
  {
    RowDistanceIs(n, 0, n - 1);
    if n > 1 { RowDistanceIs(n, 1, n - 1); }
  }

  /** With all levels busy every call moves one place on, so the last level does have to wait that long. */
  lemma {:induction false} AllBusyWait(n: nat, lists: seq<seq<bool>>, turns: seq<Turn>, picks: seq<Option<nat>>, k: nat)
    requires Calls(n, lists, turns, picks) && turns[0] == Turn(0, 0) && k < Rows(n) && k < |lists|
    requires forall i :: 0 <= i < |lists| ==> |lists[i]| == n && forall l :: 0 <= l < n ==> lists[i][l]
    ensures Valid(n, turns[k]) && Distance(n, turns[k], n - 1) == Rows(n) - 1 - k
    ensures k < Rows(n) - 1 ==> picks[k] != Some(n - 1)
  {
    LastLevelWaits(n);
    assert picks[k] == Choose(lists[k], turns[k]).0 == Some(turns[k].prio);
    if k > 0 {
      AllBusyWait(n, lists, turns, picks, k - 1);
      assert picks[k - 1] == Choose(lists[k - 1], turns[k - 1]).0;
      OneCloser(n, turns[k - 1], n - 1);
    }
  }

  // ---------------------------------------------------------------- the code

  type Queue = nat

  /** Where a scan goes on after the end of a row. */
  function RowEnd(busy: seq<bool>, e: nat, wrapped: bool): Option<Turn>
    requires e < |busy|
  {
    if e + 1 < |busy| then Scan(busy, Turn(e + 1, 0), wrapped)
    else if wrapped then None
    else Scan(busy, Turn(0, 0), true)
  }

  class CfqData {
    const rrList: array<seq<Queue>>
    var curRr: seq<Queue>
    var curPrio: nat
    var curEndPrio: nat

    ghost predicate Ok()
      reads this
    {
      rrList.Length > 0 && Valid(rrList.Length, Turn(curEndPrio, curPrio))
    }

    ghost function Busy(): (b: seq<bool>)
      reads this, rrList
      ensures |b| == rrList.Length && forall l :: 0 <= l < |b| ==> b[l] == (rrList[l] != [])
    {
      seq(rrList.Length, l requires 0 <= l < rrList.Length reads this, rrList => rrList[l] != [])
    }

    constructor (n: nat)
      requires n > 0
      ensures Ok() && fresh(rrList) && rrList.Length == n && curPrio == curEndPrio == 0
    {
      rrList := new seq<Queue>[n](_ => []);
      curRr, curPrio, curEndPrio := [], 0, 0;
    }

    /** The search of cfq_get_next_prio_level */
    method FindLevel() returns (prio: int)
      requires Ok()
      modifies this`curPrio, this`curEndPrio
      ensures prio == -1 || 0 <= prio < rrList.Length
      ensures var f := Scan(old(Busy()), old(Turn(curEndPrio, curPrio)), false);
              if prio == -1 then f.None? && curPrio == 0 && curEndPrio == 0 else f == Some(Turn(curEndPrio, prio))
    {
      ghost var busy := Busy();
      ghost var start := Turn(curEndPrio, curPrio);
      var wrap := false;
      while true
        invariant Ok() && Busy() == busy && Scan(busy, Turn(curEndPrio, curPrio), wrap) == Scan(busy, start, false)
        decreases if wrap then 0 else 1, rrList.Length - curEndPrio
      {
        var p := curPrio;
        while p <= curEndPrio && rrList[p] == []
          invariant curPrio <= p <= curEndPrio + 1
          invariant p <= curEndPrio ==> Scan(busy, Turn(curEndPrio, p), wrap) == Scan(busy, start, false)
          invariant p == curEndPrio + 1 ==> Scan(busy, start, false) == RowEnd(busy, curEndPrio, wrap)
          decreases curEndPrio - p
        {
          p := p + 1;
        }
        if p <= curEndPrio {
          return p;
        }
        curPrio := 0;
        curEndPrio := curEndPrio + 1;
        if curEndPrio == rrList.Length {
          curEndPrio := 0;
          if wrap {
            return -1;
          }
          wrap := true;
        }
      }
    }

    /** cfq_get_next_prio_level */
    method GetNextPrioLevel() returns (prio: int)
      requires Ok()
      modifies this, rrList
      ensures Ok()
      ensures var c := Choose(old(Busy()), old(Turn(curEndPrio, curPrio)));
              && prio == (if c.0.Some? then c.0.value else -1) && Turn(curEndPrio, curPrio) == c.1
      ensures prio == -1 ==> curRr == old(curRr) && rrList[..] == old(rrList[..])
      ensures 0 <= prio ==>
              prio < rrList.Length && curRr == old(rrList[prio] + curRr) && rrList[..] == old(rrList[..])[prio := []]
    {
      ChooseIs(Busy(), Turn(curEndPrio, curPrio));
      ScanFinds(Busy(), Turn(curEndPrio, curPrio), false);
      prio := FindLevel();
      if prio == -1 {
        return;
      }
      curRr := rrList[prio] + curRr;
      rrList[prio] := [];
      curPrio := prio + 1;
      if curPrio > curEndPrio {
        curEndPrio := curPrio;
        curPrio := 0;
      }
      if curEndPrio == rrList.Length {
        curPrio := 0;
        curEndPrio := 0;
      }
    }
  }
}
