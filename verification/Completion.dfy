// __end_that_request_first of ll_rw_blk.c: a driver completes the first bytes of a request.
module Completion {
  /** A vector of a bio: `len` bytes of a page from `off` on. */
  datatype Vec = Vec(page: nat, off: nat, len: nat)

  /** A bio; the vectors before idx are done, size counts the bytes left, sector is where they go. */
  datatype Bio = Bio(vecs: seq<Vec>, idx: nat, size: nat, sector: nat)

  /** A byte of memory: a page and a position in it. */
  type Place = (nat, nat)

  function VecBytes(v: Vec): (s: seq<Place>)
    ensures |s| == v.len
  {
    seq(v.len, i => (v.page, v.off + i))
  }

  /** The bytes of the vectors from k on, in order. */
  function BytesFrom(vecs: seq<Vec>, k: nat): seq<Place>
    decreases |vecs| - k
  {
    if k >= |vecs| then [] else VecBytes(vecs[k]) + BytesFrom(vecs, k + 1)
  }

  /** The bytes of a chain of bios that are not done. */
  function ChainBytes(bios: seq<Bio>): seq<Place> {
    if |bios| == 0 then [] else BytesFrom(bios[0].vecs, bios[0].idx) + ChainBytes(bios[1..])
  }

  /** A bio with bytes left, whose size is the sum of its remaining vectors. */
  predicate WellFormed(b: Bio) { b.idx < |b.vecs| && b.size > 0 && b.size == |BytesFrom(b.vecs, b.idx)| }

  predicate ChainOk(bios: seq<Bio>) { forall i :: 0 <= i < |bios| ==> WellFormed(bios[i]) }

  function TotalSize(bios: seq<Bio>): nat {
    if |bios| == 0 then 0 else bios[0].size + TotalSize(bios[1..])
  }

  // ---------------------------------------------------------------- part of a bio

  /** The first vector that is not wholly among the next n bytes, from k on. */
  function Reached(vecs: seq<Vec>, k: nat, n: nat): (r: nat)
    requires k <= |vecs|
    ensures k <= r <= |vecs|
    decreases |vecs| - k
  {
    if n == 0 || k == |vecs| || vecs[k].len > n then k else Reached(vecs, k + 1, n - vecs[k].len)
  }

  /** The bytes of that vector that are among the n. */
  function Rest(vecs: seq<Vec>, k: nat, n: nat): nat
    requires k <= |vecs|
    decreases |vecs| - k
  {
    if n == 0 || k == |vecs| || vecs[k].len > n then n else Rest(vecs, k + 1, n - vecs[k].len)
  }

  function Cut(vecs: seq<Vec>, k: nat, m: nat): seq<Vec>
    requires k < |vecs| && m <= vecs[k].len
  {
    vecs[k := vecs[k].(off := vecs[k].off + m, len := vecs[k].len - m)]
  }

  lemma {:induction false} ReachedIn(vecs: seq<Vec>, k: nat, n: nat)
    requires k < |vecs| && n < |BytesFrom(vecs, k)|
    ensures Reached(vecs, k, n) < |vecs| && Rest(vecs, k, n) <= vecs[Reached(vecs, k, n)].len
    ensures Rest(vecs, k, n) == 0 || Rest(vecs, k, n) < vecs[Reached(vecs, k, n)].len
    decreases |vecs| - k
  {
    if n > 0 && vecs[k].len <= n { ReachedIn(vecs, k + 1, n - vecs[k].len); }
  }

  /** The bio with its first n bytes done. */
  function Advance(b: Bio, n: nat): Bio
    requires WellFormed(b) && n < b.size
  {
    ReachedIn(b.vecs, b.idx, n);
    var k := Reached(b.vecs, b.idx, n);
    Bio(Cut(b.vecs, k, Rest(b.vecs, b.idx, n)), k, b.size - n, b.sector + n / 512)
  }

  /** Vectors from k on do not depend on those before. */
  lemma {:induction false} BytesAgree(vecs: seq<Vec>, ws: seq<Vec>, k: nat)
    requires |vecs| == |ws| && forall i :: k <= i < |vecs| ==> vecs[i] == ws[i]
    ensures BytesFrom(vecs, k) == BytesFrom(ws, k)
    decreases |vecs| - k
  {
    if k < |vecs| { BytesAgree(vecs, ws, k + 1); }
  }

  lemma {:induction false} DropFront(a: seq<Place>, b: seq<Place>, m: nat)
    requires m <= |a|
    ensures (a + b)[m..] == a[m..] + b
  {
  }

  lemma {:induction false} CutBytes(vecs: seq<Vec>, k: nat, m: nat)
    requires k < |vecs| && m <= vecs[k].len
    ensures BytesFrom(Cut(vecs, k, m), k) == BytesFrom(vecs, k)[m..]
  {
    var ws := Cut(vecs, k, m);
    BytesAgree(vecs, ws, k + 1);
    assert VecBytes(ws[k]) == VecBytes(vecs[k])[m..];
    DropFront(VecBytes(vecs[k]), BytesFrom(vecs, k + 1), m);
  }

  lemma {:induction false} ReachedBytes(vecs: seq<Vec>, k: nat, n: nat)
    requires k < |vecs| && n < |BytesFrom(vecs, k)|
    ensures var r := Reached(vecs, k, n); var m := Rest(vecs, k, n);
            r < |vecs| && m <= |BytesFrom(vecs, r)| && BytesFrom(vecs, r)[m..] == BytesFrom(vecs, k)[n..]
    decreases |vecs| - k
  {
    if n > 0 && vecs[k].len <= n {
      ReachedBytes(vecs, k + 1, n - vecs[k].len);
      assert BytesFrom(vecs, k)[n..] == BytesFrom(vecs, k + 1)[n - vecs[k].len..];
    }
  }

  /** Advancing a bio removes exactly its first n bytes and leaves it well-formed. */
  lemma {:induction false} AdvanceBytes(b: Bio, n: nat)
    requires WellFormed(b) && n < b.size
    ensures var b' := Advance(b, n); BytesFrom(b'.vecs, b'.idx) == BytesFrom(b.vecs, b.idx)[n..] && WellFormed(b')
  {
    ReachedIn(b.vecs, b.idx, n);
    ReachedBytes(b.vecs, b.idx, n);
    CutBytes(b.vecs, Reached(b.vecs, b.idx, n), Rest(b.vecs, b.idx, n));
  }

  // ---------------------------------------------------------------- the chain

  /** The chain with its first n bytes done: whole bios go, the next one advances. */
  function EndFirst(bios: seq<Bio>, n: nat): seq<Bio>
    requires ChainOk(bios)
  {
    if |bios| == 0 then []
    else if n >= bios[0].size then EndFirst(bios[1..], n - bios[0].size)
    else [Advance(bios[0], n)] + bios[1..]
  }

  lemma {:induction false} SizeIsBytes(bios: seq<Bio>)
    requires ChainOk(bios)
    ensures TotalSize(bios) == |ChainBytes(bios)|
  {
    if |bios| > 0 { SizeIsBytes(bios[1..]); }
  }

  /** Completing n bytes removes exactly the first n bytes, and keeps every bio well-formed. */
  lemma {:induction false} RemovesFirst(bios: seq<Bio>, n: nat)
    requires ChainOk(bios)
    ensures ChainOk(EndFirst(bios, n)) && TotalSize(bios) == |ChainBytes(bios)|
    ensures ChainBytes(EndFirst(bios, n)) == if n <= |ChainBytes(bios)| then ChainBytes(bios)[n..] else []
  {
    SizeIsBytes(bios);
    if |bios| > 0 {
      var first := BytesFrom(bios[0].vecs, bios[0].idx);
      SizeIsBytes(bios[1..]);
      if n >= bios[0].size {
        RemovesFirst(bios[1..], n - bios[0].size);
        assert n <= |ChainBytes(bios)| ==> ChainBytes(bios)[n..] == ChainBytes(bios[1..])[n - |first|..];
      } else {
        AdvanceBytes(bios[0], n);
        var rest := [Advance(bios[0], n)] + bios[1..];
        assert rest[1..] == bios[1..];
        assert ChainBytes(bios)[n..] == first[n..] + ChainBytes(bios[1..]);
      }
    }
  }

  /** The request is finished exactly when n covers all that is left. */
  lemma {:induction false} DoneExactly(bios: seq<Bio>, n: nat)
    requires ChainOk(bios)
    ensures EndFirst(bios, n) == [] <==> n >= TotalSize(bios)
  {
    if |bios| > 0 && n >= bios[0].size { DoneExactly(bios[1..], n - bios[0].size); }
  }

  // ---------------------------------------------------------------- additivity

  lemma {:induction false} SameAfter(vecs: seq<Vec>, ws: seq<Vec>, k: nat, n: nat)
    requires k <= |vecs| == |ws| && forall i :: k <= i < |vecs| ==> vecs[i] == ws[i]
    ensures Reached(vecs, k, n) == Reached(ws, k, n) && Rest(vecs, k, n) == Rest(ws, k, n)
    decreases |vecs| - k
  {
    if k < |vecs| && n > 0 && vecs[k].len <= n { SameAfter(vecs, ws, k + 1, n - vecs[k].len); }
  }

  lemma {:induction false} ReachedCut(vecs: seq<Vec>, k: nat, m: nat, n: nat)
    requires k < |vecs| && 0 < m < vecs[k].len
    ensures var ws := Cut(vecs, k, m);
            && Reached(ws, k, n) == Reached(vecs, k, m + n)
            && Rest(ws, k, n) == (if n < vecs[k].len - m then n else Rest(vecs, k, m + n))
            && (n < vecs[k].len - m ==> Rest(vecs, k, m + n) == m + n)
  {
    var ws := Cut(vecs, k, m);
    if n >= vecs[k].len - m {
      SameAfter(vecs, ws, k + 1, n - (vecs[k].len - m));
    }
  }

  /** Going on from where n bytes lead is going n bytes further. */
  lemma {:induction false} ReachedTwice(vecs: seq<Vec>, k: nat, a: nat, b: nat)
    requires k <= |vecs|
    ensures Reached(vecs, k, a + b) == Reached(vecs, Reached(vecs, k, a), Rest(vecs, k, a) + b)
    ensures Rest(vecs, k, a + b) == Rest(vecs, Reached(vecs, k, a), Rest(vecs, k, a) + b)
    decreases |vecs| - k
  {
    if k < |vecs| && a > 0 && vecs[k].len <= a { ReachedTwice(vecs, k + 1, a - vecs[k].len, b); }
  }

  /** And in the sector. */
  predicate Alike(b: Bio, c: Bio) {
    && b.idx == c.idx <= |b.vecs| == |c.vecs| && b.size == c.size
    && forall i :: b.idx <= i < |b.vecs| ==> b.vecs[i] == c.vecs[i]
  }

  /** Two bios agree in all but the vectors that are done. */
  predicate Same(b: Bio, c: Bio) { Alike(b, c) && b.sector == c.sector }

  predicate SameChain(bs: seq<Bio>, cs: seq<Bio>) {
    |bs| == |cs| && forall i :: 0 <= i < |bs| ==> Same(bs[i], cs[i])
  }

  predicate AlikeFirst(bs: seq<Bio>, cs: seq<Bio>) { |bs| == |cs| && (|bs| > 0 ==> Alike(bs[0], cs[0])) }

  /** In sectors: the bytes done so far end on a sector boundary, or the whole number of sectors adds up anyway. */
  predicate SectorsAdd(a: nat, b: nat) { a / 512 + b / 512 == (a + b) / 512 }

  /** Where m and then n bytes lead, when m ends inside a vector. */
  lemma {:induction false} CutOn(vecs: seq<Vec>, j: nat, m: nat, n: nat)
    requires j < |vecs| && m + n < |BytesFrom(vecs, j)| && Rest(vecs, j, m) > 0
    ensures var k, r := Reached(vecs, j, m), Rest(vecs, j, m);
            && k < |vecs| && 0 < r < vecs[k].len
            && Reached(Cut(vecs, k, r), k, n) == Reached(vecs, j, m + n)
            && Rest(Cut(vecs, k, r), k, n) == (if n < vecs[k].len - r then n else Rest(vecs, j, m + n))
            && (n < vecs[k].len - r ==> Rest(vecs, j, m + n) == r + n && Reached(vecs, j, m + n) == k)
  {
    ReachedIn(vecs, j, m);
    ReachedTwice(vecs, j, m, n);
    ReachedCut(vecs, Reached(vecs, j, m), Rest(vecs, j, m), n);
  }

  /** Marking m and then n bytes as done leaves the vectors that m + n leaves. */
  lemma {:induction false} CutAgree(vecs: seq<Vec>, j: nat, m: nat, n: nat)
    requires j < |vecs| && m + n < |BytesFrom(vecs, j)|
    requires var k, r := Reached(vecs, j, m), Rest(vecs, j, m); k < |vecs| && r <= vecs[k].len
    ensures var k, r := Reached(vecs, j, m), Rest(vecs, j, m);
            var ws, l := Cut(vecs, k, r), Reached(vecs, j, m + n);
            && Reached(ws, k, n) == l < |vecs| && Rest(ws, k, n) <= ws[l].len && Rest(vecs, j, m + n) <= vecs[l].len
            && forall i :: l <= i < |vecs| ==> Cut(ws, l, Rest(ws, k, n))[i] == Cut(vecs, l, Rest(vecs, j, m + n))[i]
  {
    ReachedIn(vecs, j, m + n);
    if Rest(vecs, j, m) == 0 {
      ReachedTwice(vecs, j, m, n);
      assert Cut(vecs, Reached(vecs, j, m), 0) == vecs;
    } else {
      CutOn(vecs, j, m, n);
    }
  }

  /** Two completions inside a bio leave what one does, but for vectors already done, exactly when sectors add up. */
  lemma {:induction false} AdvanceTwice(b: Bio, m: nat, n: nat)
    requires WellFormed(b) && m + n < b.size
    ensures WellFormed(Advance(b, m))
    ensures Alike(Advance(Advance(b, m), n), Advance(b, m + n))
    ensures Same(Advance(Advance(b, m), n), Advance(b, m + n)) <==> SectorsAdd(m, n)
  {
    AdvanceBytes(b, m);
    ReachedIn(b.vecs, b.idx, m);
    CutAgree(b.vecs, b.idx, m, n);
  }

  /** The first part ends between vectors, or both parts end in the same one. */
  predicate VecsAdd(vecs: seq<Vec>, j: nat, m: nat, n: nat)
    requires j <= |vecs|
  {
    Rest(vecs, j, m) == 0 || Reached(vecs, j, m) == Reached(vecs, j, m + n)
  }

  lemma {:induction false} CutExactly(vecs: seq<Vec>, j: nat, m: nat, n: nat)
    requires j < |vecs| && m + n < |BytesFrom(vecs, j)|
    requires var k, r := Reached(vecs, j, m), Rest(vecs, j, m); k < |vecs| && r <= vecs[k].len
    ensures var k, r := Reached(vecs, j, m), Rest(vecs, j, m);
            var ws, l := Cut(vecs, k, r), Reached(vecs, j, m + n);
            && k <= Reached(ws, k, n) == l < |vecs| && Rest(ws, k, n) <= ws[l].len
                && Rest(vecs, j, m + n) <= vecs[l].len
            && (Cut(ws, l, Rest(ws, k, n)) == Cut(vecs, l, Rest(vecs, j, m + n)) <==> VecsAdd(vecs, j, m, n))
  {
    CutAgree(vecs, j, m, n);
    var k, r, l := Reached(vecs, j, m), Rest(vecs, j, m), Reached(vecs, j, m + n);
    var ws := Cut(vecs, k, r);
    var vs, us := Cut(ws, l, Rest(ws, k, n)), Cut(vecs, l, Rest(vecs, j, m + n));
    if VecsAdd(vecs, j, m, n) {
      assert forall i :: 0 <= i < l ==> vs[i] == us[i];
    } else {
      assert vs[k].len == vecs[k].len - r && us[k] == vecs[k];
    }
  }

  lemma {:induction false} AdvanceExactly(b: Bio, m: nat, n: nat)
    requires WellFormed(b) && m + n < b.size
    ensures WellFormed(Advance(b, m))
    ensures Advance(Advance(b, m), n) == Advance(b, m + n) <==> SectorsAdd(m, n) && VecsAdd(b.vecs, b.idx, m, n)
  {
    AdvanceBytes(b, m);
    ReachedIn(b.vecs, b.idx, m);
    CutExactly(b.vecs, b.idx, m, n);
  }

  lemma {:induction false} SameSelf(bs: seq<Bio>)
    requires ChainOk(bs)
    ensures SameChain(bs, bs) && AlikeFirst(bs, bs)
  {
  }

  /** The 512-byte condition for a chain: where both parts end inside the same bio, whole sectors add up. */
  predicate ChainSectorsAdd(bios: seq<Bio>, a: nat, b: nat)
  {
    if |bios| == 0 then true
    else if a >= bios[0].size then ChainSectorsAdd(bios[1..], a - bios[0].size, b)
    else a + b < bios[0].size ==> SectorsAdd(a, b)
  }

  /** The same with the condition on vectors that are done. */
  predicate ChainAdds(bios: seq<Bio>, a: nat, b: nat)
    requires ChainOk(bios)
  {
    if |bios| == 0 then true
    else if a >= bios[0].size then ChainAdds(bios[1..], a - bios[0].size, b)
    else a + b < bios[0].size ==> SectorsAdd(a, b) && VecsAdd(bios[0].vecs, bios[0].idx, a, b)
  }

  lemma {:induction false} SameHeads(b: Bio, c: Bio, rest: seq<Bio>)
    requires ChainOk(rest)
    ensures SameChain([b] + rest, [c] + rest) <==> Same(b, c)
    ensures [b] + rest == [c] + rest <==> b == c
  {
    SameSelf(rest);
    assert ([b] + rest)[0] == b && ([c] + rest)[0] == c;
    if Same(b, c) {
      forall i | 0 <= i < |[b] + rest| ensures Same(([b] + rest)[i], ([c] + rest)[i]) {
        if i > 0 { assert Same(rest[i - 1], rest[i - 1]); }
      }
    }
  }

  /** The second part of a completion that starts inside the first bio. */
  lemma {:induction false} AdditiveFirst(first: Bio, rest: seq<Bio>, a: nat, b: nat)
    requires WellFormed(first) && ChainOk(rest) && a < first.size
    ensures WellFormed(Advance(first, a))
    ensures var once, twice := EndFirst([first] + rest, a + b), EndFirst([Advance(first, a)] + rest, b);
            && AlikeFirst(twice, once)
            && (SameChain(twice, once) <==> (a + b < first.size ==> SectorsAdd(a, b)))
            && (twice == once <==> (a + b < first.size ==> SectorsAdd(a, b) && VecsAdd(first.vecs, first.idx, a, b)))
  {
    AdvanceBytes(first, a);
    var mid := [Advance(first, a)] + rest;
    assert mid[1..] == rest && ([first] + rest)[1..] == rest;
    if a + b < first.size {
      AdvanceTwice(first, a, b);
      AdvanceExactly(first, a, b);
      SameHeads(Advance(mid[0], b), Advance(first, a + b), rest);
    } else {
      RemovesFirst(rest, b - mid[0].size);
      SameSelf(EndFirst(rest, b - mid[0].size));
    }
  }

  /** How two completions compare with one: what is left agrees; sectors agree, and all does, exactly when said. */
  ghost predicate Compare(twice: seq<Bio>, once: seq<Bio>, sectors: bool, all: bool) {
    AlikeFirst(twice, once) && (SameChain(twice, once) <==> sectors) && (twice == once <==> all)
  }

  lemma {:induction false} AdditiveNone(bios: seq<Bio>, a: nat, b: nat)
    requires |bios| == 0
    ensures ChainOk(EndFirst(bios, a))
    ensures Compare(EndFirst(EndFirst(bios, a), b), EndFirst(bios, a + b), ChainSectorsAdd(bios, a, b),
                    ChainAdds(bios, a, b))
  {
  }

  lemma {:induction false} AdditiveHere(bios: seq<Bio>, a: nat, b: nat)
    requires ChainOk(bios) && |bios| > 0 && a < bios[0].size
    ensures ChainOk(EndFirst(bios, a))
    ensures Compare(EndFirst(EndFirst(bios, a), b), EndFirst(bios, a + b), ChainSectorsAdd(bios, a, b),
                    ChainAdds(bios, a, b))
  {
    var first, rest := bios[0], bios[1..];
    assert bios == [first] + rest;
    assert EndFirst(bios, a) == [Advance(first, a)] + rest;
    AdditiveFirst(first, rest, a, b);
  }

  lemma {:induction false} AdditiveSkip(bios: seq<Bio>, a: nat, b: nat)
    requires ChainOk(bios) && |bios| > 0 && a >= bios[0].size
    ensures ChainOk(bios[1..]) && EndFirst(bios, a) == EndFirst(bios[1..], a - bios[0].size)
    ensures EndFirst(bios, a + b) == EndFirst(bios[1..], a - bios[0].size + b)
    ensures ChainSectorsAdd(bios, a, b) <==> ChainSectorsAdd(bios[1..], a - bios[0].size, b)
    ensures ChainAdds(bios, a, b) <==> ChainAdds(bios[1..], a - bios[0].size, b)
  {
  }

  ghost predicate Met(mid: seq<Bio>, b: nat, once: seq<Bio>, sectors: bool, all: bool) {
    ChainOk(mid) && Compare(EndFirst(mid, b), once, sectors, all)
  }

  ghost predicate ComparesAt(bios: seq<Bio>, a: nat, b: nat)
    requires ChainOk(bios)
  {
    Met(EndFirst(bios, a), b, EndFirst(bios, a + b), ChainSectorsAdd(bios, a, b), ChainAdds(bios, a, b))
  }

  lemma {:induction false} ComparesFirst(bios: seq<Bio>, a: nat, b: nat)
    requires ChainOk(bios) && (|bios| > 0 ==> a < bios[0].size)
    ensures Met(EndFirst(bios, a), b, EndFirst(bios, a + b), ChainSectorsAdd(bios, a, b), ChainAdds(bios, a, b))
  {
    if |bios| == 0 { AdditiveNone(bios, a, b); } else { AdditiveHere(bios, a, b); }
  }

  lemma {:induction false} ComparesWith(met: (seq<Bio>, nat, seq<Bio>, bool, bool) -> bool, bios: seq<Bio>, a: nat,
                                        b: nat)
    requires ChainOk(bios)
    requires forall x, n, y, s, t {:trigger Met(x, n, y, s, t)} :: met(x, n, y, s, t) == Met(x, n, y, s, t)
    ensures met(EndFirst(bios, a), b, EndFirst(bios, a + b), ChainSectorsAdd(bios, a, b), ChainAdds(bios, a, b))
  {
    if |bios| > 0 && a >= bios[0].size {
      AdditiveSkip(bios, a, b);
      ComparesWith(met, bios[1..], a - bios[0].size, b);
    } else {
      ComparesFirst(bios, a, b);
    }
  }

  lemma {:induction false} Compares(bios: seq<Bio>, a: nat, b: nat)
    requires ChainOk(bios)
    ensures ComparesAt(bios, a, b)
  {
    ComparesWith(Met, bios, a, b);
  }

  /** Completing a bytes and then b is completing a + b, but for vectors already done, exactly when sectors add up.
      And it is the very same chain exactly when, besides, the first part cut no vector that the second finished. */
  lemma {:induction false} Additive(bios: seq<Bio>, a: nat, b: nat)
    requires ChainOk(bios)
    ensures ChainOk(EndFirst(bios, a)) && AlikeFirst(EndFirst(EndFirst(bios, a), b), EndFirst(bios, a + b))
    ensures SameChain(EndFirst(EndFirst(bios, a), b), EndFirst(bios, a + b)) <==> ChainSectorsAdd(bios, a, b)
    ensures EndFirst(EndFirst(bios, a), b) == EndFirst(bios, a + b) <==> ChainAdds(bios, a, b)
  {
    Compares(bios, a, b);
  }

  /** For sizes and a first part in whole sectors the condition holds. */
  lemma {:induction false} WholeSectorsChain(bios: seq<Bio>, a: nat, b: nat)
    requires (forall i :: 0 <= i < |bios| ==> bios[i].size % 512 == 0) && a % 512 == 0
    ensures ChainSectorsAdd(bios, a, b)
  {
    if |bios| > 0 && a >= bios[0].size {
      WholeSectorsChain(bios[1..], a - bios[0].size, b);
    }
  }

  /** What is not done is the whole of what stays the same: vectors already done may differ. */
  lemma {:induction false} DoneVectorsDiffer(v: Vec, w: Vec)
    requires v.len == 2 && w.len == 2
    ensures var b := Bio([v, w], 0, 4, 0);
            WellFormed(b) && WellFormed(Advance(b, 1))
            && Advance(Advance(b, 1), 2).vecs == [v.(off := v.off + 1, len := 1), w.(off := w.off + 1, len := 1)]
            && Advance(b, 3).vecs == [v, w.(off := w.off + 1, len := 1)]
  {
    var vs := [v, w];
    var b := Bio(vs, 0, 4, 0);
    assert BytesFrom(vs, 2) == [] && |BytesFrom(vs, 1)| == 2 && |BytesFrom(vs, 0)| == 4;
    AdvanceBytes(b, 1);
    assert Reached(vs, 0, 1) == 0 && Rest(vs, 0, 1) == 1;
    assert Reached(vs, 1, 1) == 1 && Rest(vs, 1, 1) == 1 && Reached(vs, 0, 3) == 1 && Rest(vs, 0, 3) == 1;
    assert Advance(b, 3).vecs == Cut(vs, 1, 1);
    var ws := Cut(vs, 0, 1);
    assert Advance(b, 1).vecs == ws && ws[0].len == 1 && ws[1] == w;
    assert Reached(ws, 1, 1) == 1 && Rest(ws, 1, 1) == 1 && Reached(ws, 0, 2) == 1 && Rest(ws, 0, 2) == 1;
    assert Advance(Advance(b, 1), 2).vecs == Cut(ws, 1, 1);
  }

  // ---------------------------------------------------------------- the request's sector fields

  /** hard_sector, hard_nr_sectors, sector, nr_sectors and current_nr_sectors of a request. */
  datatype Fields = Fields(hardSector: nat, hardNr: int, sector: nat, nr: int, cur: nat)

  /** The sectors of the vector that comes next. */
  function CurSectors(b: Bio): nat
    requires b.idx < |b.vecs|
  {
    b.vecs[b.idx].len / 512
  }

  /** blk_recalc_rq_sectors for a file system request: k sectors are done, and the next vector has `cur`. */
  function Recalc(f: Fields, k: nat, cur: nat): Fields {
    var hs, hn := f.hardSector + k, f.hardNr - k;
    var g := if f.nr >= hn && f.sector <= hs then Fields(hs, hn, hs, hn, cur) else f.(hardSector := hs, hardNr := hn);
    if g.nr < g.cur then g.(nr := g.cur) else g
  }

  /** The fields match what is left: whole sectors, and nothing botched. */
  predicate FieldsOk(f: Fields, bios: seq<Bio>) { f.hardNr * 512 == TotalSize(bios) && f.cur <= f.nr }

  /** The fields once k sectors are done and `left` are the bios that are left. */
  function FieldsFor(f: Fields, left: seq<Bio>, k: nat): Fields
    requires ChainOk(left)
  {
    if left == [] then f else Recalc(f, k, CurSectors(left[0]))
  }

  lemma {:induction false} StaysOk(bios: seq<Bio>, n: nat)
    requires ChainOk(bios)
    ensures ChainOk(EndFirst(bios, n))
  {
    RemovesFirst(bios, n);
  }

  /** The fields after n bytes; those that finish the request leave them as they are. */
  function FieldsAfter(f: Fields, bios: seq<Bio>, n: nat): Fields
    requires ChainOk(bios)
  {
    StaysOk(bios, n);
    FieldsFor(f, EndFirst(bios, n), n / 512)
  }

  lemma {:induction false} CurFits(bios: seq<Bio>)
    requires ChainOk(bios) && |bios| > 0
    ensures bios[0].vecs[bios[0].idx].len <= TotalSize(bios)
  {
    assert BytesFrom(bios[0].vecs, bios[0].idx) == VecBytes(bios[0].vecs[bios[0].idx])
           + BytesFrom(bios[0].vecs, bios[0].idx + 1);
  }

  lemma {:induction false} TotalLeft(bios: seq<Bio>, n: nat)
    requires ChainOk(bios) && n <= TotalSize(bios)
    ensures TotalSize(EndFirst(bios, n)) == TotalSize(bios) - n
  {
    RemovesFirst(bios, n);
    SizeIsBytes(EndFirst(bios, n));
  }

  /** Completing whole sectors keeps the fields in step with the bios, without the botched case. */
  lemma {:induction false} FieldsKeep(f: Fields, bios: seq<Bio>, n: nat)
    requires ChainOk(bios) && FieldsOk(f, bios) && n % 512 == 0 && n < TotalSize(bios)
    ensures FieldsOk(FieldsAfter(f, bios, n), EndFirst(bios, n))
  {
    RemovesFirst(bios, n);
    DoneExactly(bios, n);
    TotalLeft(bios, n);
    CurFits(EndFirst(bios, n));
  }

  lemma {:induction false} RecalcTwice(f: Fields, j: nat, k: nat, cur: nat, cur': nat)
    requires f.cur <= f.nr && cur <= f.hardNr - j && cur' <= f.hardNr - j - k
    ensures Recalc(Recalc(f, j, cur), k, cur') == Recalc(f, j + k, cur')
  {
  }

  /** The submission fields are where a recalculation puts them, or are ahead and stay. */
  predicate Settled(f: Fields, next: Bio)
    requires next.idx < |next.vecs|
  {
    f.nr >= f.hardNr && f.sector <= f.hardSector ==>
      f == Fields(f.hardSector, f.hardNr, f.hardSector, f.hardNr, CurSectors(next))
  }

  /** A call for no bytes recalculates the fields and nothing else. */
  lemma {:induction false} NothingDone(f: Fields, bios: seq<Bio>)
    requires ChainOk(bios) && FieldsOk(f, bios) && |bios| > 0
    ensures EndFirst(bios, 0) == bios && (FieldsAfter(f, bios, 0) == f <==> Settled(f, bios[0]))
  {
    var v := bios[0].vecs[bios[0].idx];
    assert bios[0].vecs[bios[0].idx := v.(off := v.off + 0, len := v.len - 0)] == bios[0].vecs;
    assert Advance(bios[0], 0) == bios[0];
    assert [bios[0]] + bios[1..] == bios;
    CurFits(bios);
    assert CurSectors(bios[0]) <= f.hardNr;
  }

  /** What is left of an unfinished request after n bytes. */
  lemma {:induction false} LeftFacts(f: Fields, bios: seq<Bio>, n: nat)
    requires ChainOk(bios) && FieldsOk(f, bios) && n % 512 == 0 && n < TotalSize(bios)
    ensures ChainOk(EndFirst(bios, n)) && |EndFirst(bios, n)| > 0
    ensures CurSectors(EndFirst(bios, n)[0]) <= f.hardNr - n / 512
  {
    RemovesFirst(bios, n);
    DoneExactly(bios, n);
    TotalLeft(bios, n);
    CurFits(EndFirst(bios, n));
  }

  lemma {:induction false} FieldsTwice(f: Fields, mid: seq<Bio>, twice: seq<Bio>, once: seq<Bio>, j: nat, k: nat)
    requires ChainOk(mid) && ChainOk(twice) && ChainOk(once) && |mid| > 0 && |once| > 0 && AlikeFirst(twice, once)
    requires f.cur <= f.nr && CurSectors(mid[0]) <= f.hardNr - j && CurSectors(once[0]) <= f.hardNr - j - k
    ensures FieldsFor(FieldsFor(f, mid, j), twice, k) == FieldsFor(f, once, j + k)
  {
    RecalcTwice(f, j, k, CurSectors(mid[0]), CurSectors(once[0]));
  }

  lemma {:induction false} WholeSectors(a: nat, b: nat)
    requires a % 512 == 0 && b % 512 == 0
    ensures (a + b) % 512 == 0 && a / 512 + b / 512 == (a + b) / 512
  {
  }

  lemma {:induction false} FieldsMeet(f: Fields, bios: seq<Bio>, a: nat, b: nat, mid: seq<Bio>, j: nat, k: nat)
    requires ChainOk(bios) && mid == EndFirst(bios, a) && ChainOk(mid) && ChainOk(EndFirst(bios, a + b))
    requires |mid| > 0 && |EndFirst(bios, a + b)| > 0 && AlikeFirst(EndFirst(mid, b), EndFirst(bios, a + b))
    requires j == a / 512 && k == b / 512 && j + k == (a + b) / 512 && f.cur <= f.nr
    requires CurSectors(mid[0]) <= f.hardNr - j && CurSectors(EndFirst(bios, a + b)[0]) <= f.hardNr - j - k
    ensures FieldsAfter(FieldsAfter(f, bios, a), mid, b) == FieldsAfter(f, bios, a + b)
  {
    StaysOk(mid, b);
    FieldsTwice(f, mid, EndFirst(mid, b), EndFirst(bios, a + b), j, k);
  }

  lemma {:induction false} UnfinishedFields(f: Fields, bios: seq<Bio>, a: nat, b: nat)
    requires ChainOk(bios) && FieldsOk(f, bios) && a % 512 == 0 && b % 512 == 0 && a + b < TotalSize(bios)
    requires ChainOk(EndFirst(bios, a)) && AlikeFirst(EndFirst(EndFirst(bios, a), b), EndFirst(bios, a + b))
    ensures FieldsAfter(FieldsAfter(f, bios, a), EndFirst(bios, a), b) == FieldsAfter(f, bios, a + b)
  {
    WholeSectors(a, b);
    LeftFacts(f, bios, a);
    LeftFacts(f, bios, a + b);
    FieldsMeet(f, bios, a, b, EndFirst(bios, a), a / 512, b / 512);
  }

  /** The sector fields add up too, for whole sectors, exactly when the second part does not finish the request, as the
      call that finishes it leaves them alone, or when the first part is empty and finds them settled. */
  lemma {:induction false} FieldsAdditive(f: Fields, bios: seq<Bio>, a: nat, b: nat)
    requires ChainOk(bios) && FieldsOk(f, bios) && a % 512 == 0 && b % 512 == 0
    ensures ChainOk(EndFirst(bios, a))
    ensures FieldsAfter(FieldsAfter(f, bios, a), EndFirst(bios, a), b) == FieldsAfter(f, bios, a + b)
            <==> a + b < TotalSize(bios) || a >= TotalSize(bios) || (a == 0 && Settled(f, bios[0]))
  {
    DoneExactly(bios, a);
    DoneExactly(bios, a + b);
    StaysOk(bios, a);
    Additive(bios, a, b);
    if a < TotalSize(bios) {
      LeftFacts(f, bios, a);
      if a + b < TotalSize(bios) { UnfinishedFields(f, bios, a, b); } else if a == 0 { NothingDone(f, bios); }
    }
  }

  lemma {:induction false} OneVector(v: Vec, sector: nat)
    ensures var b := Bio([v], 0, v.len, sector); TotalSize([b]) == v.len && (v.len > 0 ==> ChainOk([b]))
  {
    var b := Bio([v], 0, v.len, sector);
    assert BytesFrom([v], 1) == [];
    assert BytesFrom([v], 0) == VecBytes(v) + BytesFrom([v], 1);
    assert [b][1..] == [];
  }

  /** Half of a request of two sectors, and then the other half, moves the fields; the whole of it does not. */
  lemma {:induction false} FieldsDiffer(v: Vec, sector: nat)
    requires v.len == 1024
    ensures var bios := [Bio([v], 0, 1024, sector)];
            var f := Fields(sector, 2, sector, 2, 2);
            && ChainOk(bios) && FieldsOk(f, bios) && ChainOk(EndFirst(bios, 512))
            && FieldsAfter(FieldsAfter(f, bios, 512), EndFirst(bios, 512), 512) != FieldsAfter(f, bios, 1024)
  {
    OneVector(v, sector);
    var bios := [Bio([v], 0, 1024, sector)];
    var f := Fields(sector, 2, sector, 2, 2);
    FieldsAdditive(f, bios, 512, 512);
  }

  // ---------------------------------------------------------------- the loop

  /** Where the loop is in a bio: the vectors and bytes of it that are done, and the bytes not spent. */
  datatype Spot = Spot(nextIdx: nat, bioBytes: nat, left: nat)

  /** What the loop leaves. */
  datatype Walked = Walked(bios: seq<Bio>, nextIdx: nat, bioBytes: nat, left: nat)

  /** The part of the loop that stays in one bio. */
  function WalkIn(bio: Bio, nextIdx: nat, bioBytes: nat, left: nat): Spot
    requires bio.idx + nextIdx <= |bio.vecs|
    decreases |bio.vecs| - bio.idx - nextIdx
  {
    if bio.idx + nextIdx == |bio.vecs| then Spot(nextIdx, bioBytes, left)
    else
      var len := bio.vecs[bio.idx + nextIdx].len;
      if len > left then Spot(nextIdx, bioBytes + left, left)
      else if len == left then Spot(nextIdx + 1, bioBytes + len, 0)
      else WalkIn(bio, nextIdx + 1, bioBytes + len, left - len)
  }

  function Walk(bios: seq<Bio>, nextIdx: nat, bioBytes: nat, left: nat): Walked
    requires |bios| > 0 ==> bios[0].idx + nextIdx <= |bios[0].vecs|
    requires ChainOk(bios)
  {
    if |bios| == 0 then Walked(bios, nextIdx, bioBytes, left)
    else if left >= bios[0].size then
      if |bios| > 1 && left == bios[0].size then Walked(bios[1..], 0, 0, 0)
      else Walk(bios[1..], 0, 0, left - bios[0].size)
    else
      var spot := WalkIn(bios[0], nextIdx, bioBytes, left);
      Walked(bios, spot.nextIdx, spot.bioBytes, spot.left)
  }

  /** One turn of the loop: a bio is done, */
  lemma {:induction false} WalkBio(bios: seq<Bio>, nextIdx: nat, bioBytes: nat, left: nat)
    requires ChainOk(bios) && |bios| > 0 && bios[0].idx + nextIdx <= |bios[0].vecs| && left >= bios[0].size
    ensures Walk(bios, nextIdx, bioBytes, left) ==
            if |bios| > 1 && left == bios[0].size then Walked(bios[1..], 0, 0, 0)
            else Walk(bios[1..], 0, 0, left - bios[0].size)
  {
  }

  /** More than `left` bytes of the bio come from vector nextIdx on, if it has more than that. */
  ghost predicate Ahead(bio: Bio, nextIdx: nat, left: nat) {
    && |BytesFrom(bio.vecs, bio.idx + nextIdx)| <= bio.size
    && (left < bio.size ==> left < |BytesFrom(bio.vecs, bio.idx + nextIdx)|)
  }

  /** The loop has the walk `goal` still before it. */
  ghost predicate Going(bios: seq<Bio>, nextIdx: nat, bioBytes: nat, left: nat, goal: Walked) {
    && ChainOk(bios) && (|bios| > 0 ==> bios[0].idx + nextIdx <= |bios[0].vecs| && Ahead(bios[0], nextIdx, left))
    && Walk(bios, nextIdx, bioBytes, left) == goal
  }

  /** or a vector is looked at. */
  lemma {:induction false} WalkVec(bios: seq<Bio>, nextIdx: nat, bioBytes: nat, left: nat)
    requires ChainOk(bios) && |bios| > 0 && bios[0].idx + nextIdx < |bios[0].vecs| && left < bios[0].size
    ensures var len := bios[0].vecs[bios[0].idx + nextIdx].len;
            Walk(bios, nextIdx, bioBytes, left) ==
            if len > left then Walked(bios, nextIdx, bioBytes + left, left)
            else if len == left then Walked(bios, nextIdx + 1, bioBytes + len, 0)
            else Walk(bios, nextIdx + 1, bioBytes + len, left - len)
  {
  }

  /** nextIdx vectors, with bioBytes bytes, of the n are done. */
  ghost predicate Inside(bio: Bio, n: nat, nextIdx: nat, bioBytes: nat, left: nat) {
    && bio.idx + nextIdx <= |bio.vecs| && bioBytes + left == n
    && bioBytes + |BytesFrom(bio.vecs, bio.idx + nextIdx)| == bio.size
    && Reached(bio.vecs, bio.idx, n) == Reached(bio.vecs, bio.idx + nextIdx, left)
    && Rest(bio.vecs, bio.idx, n) == Rest(bio.vecs, bio.idx + nextIdx, left)
  }

  /** The next vector is there, and it is the last of the n bytes or is done. */
  lemma {:induction false} VecInside(bio: Bio, n: nat, nextIdx: nat, bioBytes: nat, left: nat)
    requires n < bio.size && Inside(bio, n, nextIdx, bioBytes, left)
    ensures bio.idx + nextIdx < |bio.vecs|
    ensures var len := bio.vecs[bio.idx + nextIdx].len;
            && (len > left ==> Reached(bio.vecs, bio.idx, n) == bio.idx + nextIdx && Rest(bio.vecs, bio.idx, n) == left)
            && (len <= left && left > 0 ==> Inside(bio, n, nextIdx + 1, bioBytes + len, left - len))
            && (len == left > 0 ==>
                  Reached(bio.vecs, bio.idx, n) == bio.idx + nextIdx + 1 && Rest(bio.vecs, bio.idx, n) == 0)
  {
    var k := bio.idx + nextIdx;
    assert BytesFrom(bio.vecs, k) == if k >= |bio.vecs| then [] else VecBytes(bio.vecs[k]) + BytesFrom(bio.vecs, k + 1);
  }

  /** Inside a bio the loop stops where n bytes lead. */
  lemma {:induction false} WalkInStops(bio: Bio, n: nat, nextIdx: nat, bioBytes: nat, left: nat)
    requires n < bio.size && Inside(bio, n, nextIdx, bioBytes, left) && (left > 0 || nextIdx == 0)
    ensures var spot := WalkIn(bio, nextIdx, bioBytes, left);
            spot.bioBytes == n && (n > 0 ==>
                bio.idx + spot.nextIdx == Reached(bio.vecs, bio.idx, n) && spot.left == Rest(bio.vecs, bio.idx, n))
    decreases |bio.vecs| - nextIdx
  {
    VecInside(bio, n, nextIdx, bioBytes, left);
    var len := bio.vecs[bio.idx + nextIdx].len;
    if len < left {
      WalkInStops(bio, n, nextIdx + 1, bioBytes + len, left - len);
    }
  }

  /** The walk has stopped inside the first bio that is left, or at its start. */
  predicate Inner(w: Walked) {
    |w.bios| > 0 && w.bioBytes <= w.bios[0].size
    && (w.bioBytes > 0 ==>
          w.bios[0].idx + w.nextIdx < |w.bios[0].vecs| && w.left <= w.bios[0].vecs[w.bios[0].idx + w.nextIdx].len)
    && w.bios[0].idx < |w.bios[0].vecs|
  }

  /** The bios once the place in the first one is written down. */
  function Finished(w: Walked): (bios: seq<Bio>)
    requires Inner(w)
    ensures |bios| > 0 && bios[0].idx < |bios[0].vecs|
  {
    if w.bioBytes == 0 then w.bios
    else
      var bio, k := w.bios[0], w.bios[0].idx + w.nextIdx;
      [Bio(Cut(bio.vecs, k, w.left), k, bio.size - w.bioBytes, bio.sector + w.bioBytes / 512)] + w.bios[1..]
  }

  lemma {:induction false} AdvanceZero(b: Bio)
    requires WellFormed(b)
    ensures Advance(b, 0) == b
  {
  }

  lemma {:induction false} AdvanceIs(bio: Bio, n: nat, k: nat, left: nat)
    requires WellFormed(bio) && n < bio.size && k == Reached(bio.vecs, bio.idx, n) && left == Rest(bio.vecs, bio.idx, n)
    ensures k < |bio.vecs| && left <= bio.vecs[k].len
    ensures Advance(bio, n) == Bio(Cut(bio.vecs, k, left), k, bio.size - n, bio.sector + n / 512)
  {
    ReachedIn(bio.vecs, bio.idx, n);
  }

  /** What the loop leaves when n ends inside the first bio. */
  lemma {:induction false} FinishedIn(bio: Bio, rest: seq<Bio>, n: nat, spot: Spot)
    requires WellFormed(bio) && n < bio.size && spot.bioBytes == n
    requires n > 0 ==>
             bio.idx + spot.nextIdx == Reached(bio.vecs, bio.idx, n) && spot.left == Rest(bio.vecs, bio.idx, n)
    ensures var w := Walked([bio] + rest, spot.nextIdx, n, spot.left);
            Inner(w) && Finished(w) == [Advance(bio, n)] + rest
  {
    assert ([bio] + rest)[1..] == rest;
    if n == 0 {
      AdvanceZero(bio);
    } else {
      AdvanceIs(bio, n, bio.idx + spot.nextIdx, spot.left);
    }
  }

  /** Writing down where the walk stops completes the first n bytes. */
  ghost predicate EndsWell(bios: seq<Bio>, n: nat, w: Walked)
    requires ChainOk(bios)
  {
    if w.bios == [] then EndFirst(bios, n) == [] else Inner(w) && EndFirst(bios, n) == Finished(w)
  }

  lemma {:induction false} FirstOnly(bios: seq<Bio>, n: nat, bio: Bio, rest: seq<Bio>, spot: Spot)
    requires ChainOk(bios) && |bios| > 0 && bio == bios[0] && rest == bios[1..] && n < bio.size
    requires spot == WalkIn(bio, 0, 0, n)
    ensures Walk(bios, 0, 0, n) == Walked([bio] + rest, spot.nextIdx, spot.bioBytes, spot.left)
    ensures EndFirst(bios, n) == [Advance(bio, n)] + rest
  {
    assert [bio] + rest == bios;
  }

  lemma {:induction false} WalkEndsIn(bios: seq<Bio>, n: nat)
    requires ChainOk(bios) && |bios| > 0 && n < bios[0].size
    ensures EndsWell(bios, n, Walk(bios, 0, 0, n))
  {
    var bio, rest, spot := bios[0], bios[1..], WalkIn(bios[0], 0, 0, n);
    WalkInStops(bio, n, 0, 0, n);
    FinishedIn(bio, rest, n, spot);
    FirstOnly(bios, n, bio, rest, spot);
  }

  /** Writing down where the loop stops completes the first n bytes. */
  lemma {:induction false} WalkEnds(bios: seq<Bio>, n: nat)
    requires ChainOk(bios)
    ensures EndsWell(bios, n, Walk(bios, 0, 0, n))
  {
    if |bios| > 0 {
      if n < bios[0].size {
        WalkEndsIn(bios, n);
      } else if |bios| > 1 && n == bios[0].size {
        AdvanceZero(bios[1]);
        assert bios[1..] == [bios[1]] + bios[1..][1..];
      } else {
        WalkBio(bios, 0, 0, n);
        WalkEnds(bios[1..], n - bios[0].size);
      }
    }
  }

  lemma {:induction false} EndsAs(start: seq<Bio>, n: nat, f: Fields)
    requires ChainOk(start)
    ensures var w := Walk(start, 0, 0, n);
            && (w.bios == [] ==> EndFirst(start, n) == [] && FieldsAfter(f, start, n) == f)
            && (w.bios != [] ==> Inner(w) && EndFirst(start, n) == Finished(w)
                                 && FieldsAfter(f, start, n) == Recalc(f, n / 512, CurSectors(Finished(w)[0])))
  {
    WalkEnds(start, n);
  }

  lemma {:induction false} VecAhead(bio: Bio, nextIdx: nat, left: nat)
    requires Ahead(bio, nextIdx, left) && left < bio.size
    ensures bio.idx + nextIdx < |bio.vecs| && bio.vecs[bio.idx + nextIdx].len <= bio.size
    ensures var len := bio.vecs[bio.idx + nextIdx].len; len <= left ==> Ahead(bio, nextIdx + 1, left - len)
  {
    var k := bio.idx + nextIdx;
    assert BytesFrom(bio.vecs, k) == if k >= |bio.vecs| then [] else VecBytes(bio.vecs[k]) + BytesFrom(bio.vecs, k + 1);
  }

  lemma {:induction false} GoesToBio(bios: seq<Bio>, nextIdx: nat, bioBytes: nat, left: nat, goal: Walked)
    requires Going(bios, nextIdx, bioBytes, left, goal) && |bios| > 0 && left >= bios[0].size
    ensures |bios| > 1 && left == bios[0].size ==> goal == Walked(bios[1..], 0, 0, 0)
    ensures !(|bios| > 1 && left == bios[0].size) ==> Going(bios[1..], 0, 0, left - bios[0].size, goal)
  {
    WalkBio(bios, nextIdx, bioBytes, left);
  }

  lemma {:induction false} GoesToVec(bios: seq<Bio>, nextIdx: nat, bioBytes: nat, left: nat, goal: Walked)
    requires Going(bios, nextIdx, bioBytes, left, goal) && |bios| > 0 && left < bios[0].size
    ensures bios[0].idx + nextIdx < |bios[0].vecs|
    ensures var len := bios[0].vecs[bios[0].idx + nextIdx].len;
            && len <= bios[0].size
            && (len > left ==> goal == Walked(bios, nextIdx, bioBytes + left, left))
            && (len == left ==> goal == Walked(bios, nextIdx + 1, bioBytes + len, 0))
            && (len < left ==> Going(bios, nextIdx + 1, bioBytes + len, left - len, goal))
  {
    VecAhead(bios[0], nextIdx, left);
    WalkVec(bios, nextIdx, bioBytes, left);
  }

  class Request {
    var bios: seq<Bio>
    var fields: Fields

    constructor (bios: seq<Bio>, fields: Fields)
      ensures this.bios == bios && this.fields == fields
    {
      this.bios, this.fields := bios, fields;
    }

    /** One turn of the loop over the bios; its error exit and its bug check are never taken. */
    method EndOne(nrBytes: nat, total: nat, done: nat, idx: nat, ghost goal: Walked)
        returns (more: bool, left: nat, totalBytes: nat, bioBytes: nat, nextIdx: nat)
      requires |bios| > 0 && Going(bios, idx, done, nrBytes, goal)
      modifies this`bios
      ensures more ==> Going(bios, nextIdx, bioBytes, left, goal) && totalBytes + left == total + nrBytes
      ensures more ==> |bios| < |old(bios)| || (bios == old(bios) && nextIdx == idx + 1)
      ensures !more ==>
                |bios| > 0 && Walked(bios, nextIdx, bioBytes, left) == goal && totalBytes == total + nrBytes
    {
      left, totalBytes, bioBytes, nextIdx := nrBytes, total, done, idx;
      var bio := bios[0];
      var nbytes;
      if left >= bio.size {
        GoesToBio(bios, nextIdx, bioBytes, left, goal);
        bios := bios[1..];
        nbytes := bio.size;
        nextIdx, bioBytes := 0, 0;
      } else {
        if bio.idx >= |bio.vecs| {
          assert false;
        }
        GoesToVec(bios, nextIdx, bioBytes, left, goal);
        nbytes := bio.vecs[bio.idx + nextIdx].len;
        assert nbytes <= bio.size;
        if nbytes > left {
          bioBytes := bioBytes + left;
          totalBytes := totalBytes + left;
          return false, left, totalBytes, bioBytes, nextIdx;
        }
        nextIdx := nextIdx + 1;
        bioBytes := bioBytes + nbytes;
      }
      totalBytes := totalBytes + nbytes;
      left := left - nbytes;
      more := !(|bios| > 0 && left == 0);
    }

    /** The loop of __end_that_request_first: the bios that are done go, and the place in the next one is found. */
    method EndBios(nrBytes: nat) returns (left: nat, totalBytes: nat, bioBytes: nat, nextIdx: nat)
      requires ChainOk(bios)
      modifies this`bios
      ensures Walked(bios, nextIdx, bioBytes, left) == Walk(old(bios), 0, 0, nrBytes)
      ensures |bios| > 0 ==> totalBytes == nrBytes
    {
      left, totalBytes, bioBytes, nextIdx := nrBytes, 0, 0, 0;
      ghost var goal := Walk(bios, 0, 0, nrBytes);
      var more := true;
      while more && |bios| > 0
        invariant more ==> Going(bios, nextIdx, bioBytes, left, goal) && totalBytes + left == nrBytes
        invariant !more ==> |bios| > 0 && Walked(bios, nextIdx, bioBytes, left) == goal && totalBytes == nrBytes
        decreases more, |bios|, if |bios| > 0 then |bios[0].vecs| - bios[0].idx - nextIdx else 0
      {
        more, left, totalBytes, bioBytes, nextIdx := EndOne(left, totalBytes, bioBytes, nextIdx, goal);
      }
    }

    /** __end_that_request_first: false when the request is finished. */
    method EndThatRequestFirst(nrBytes: nat) returns (pending: bool)
      requires ChainOk(bios)
      modifies this
      ensures bios == EndFirst(old(bios), nrBytes) && pending == (bios != [])
      ensures fields == FieldsAfter(old(fields), old(bios), nrBytes)
    {
      EndsAs(bios, nrBytes, fields);
      var left, totalBytes, bioBytes, nextIdx := EndBios(nrBytes);
      if |bios| == 0 {
        return false;
      }
      if bioBytes > 0 {
        var bio := bios[0];
        var k := bio.idx + nextIdx;
        bios := [Bio(Cut(bio.vecs, k, left), k, bio.size - bioBytes, bio.sector + bioBytes / 512)] + bios[1..];
      }
      fields := Recalc(fields, totalBytes / 512, CurSectors(bios[0]));
      return true;
    }
  }
}
