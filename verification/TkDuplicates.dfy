// Duplicate removal in join_condition_stack, on chains of groups.
module TkDuplicates {
  import opened Conditions
  import opened TkCond
  import opened TkMeaning

  /** A group ( variable = constant ). */
  predicate Single(g: Cond) { g.Last? && AgainstText(g.atom) }

  /** Single groups that occur again later are left out. */
  function Distinct(gs: seq<Cond>): (r: seq<Cond>)
    ensures |gs| > 0 ==> |r| > 0
  {
    if |gs| == 0 then []
    else if Single(gs[0]) && gs[0] in gs[1..] then Distinct(gs[1..])
    else [gs[0]] + Distinct(gs[1..])
  }

  lemma {:induction false} DistinctSame(gs: seq<Cond>, g: Cond)
    ensures g in Distinct(gs) <==> g in gs
  {
    if |gs| > 0 { DistinctSame(gs[1..], g); }
  }

  lemma {:induction false} DistinctTrue(env: Env, gs: seq<Cond>)
    ensures AllTrue(env, Distinct(gs)) == AllTrue(env, gs)
    ensures AllPlain(gs) ==> AllPlain(Distinct(gs))
  {
    var ds := Distinct(gs);
    forall i | 0 <= i < |gs| ensures gs[i] in ds { DistinctSame(gs, gs[i]); }
    forall i | 0 <= i < |ds| ensures ds[i] in gs { DistinctSame(gs, ds[i]); }
  }

  // ---------------------------------------------------------------- tokens inside a group

  lemma {:induction false} NoParens(c: Cond)
    ensures LParen !in Tokens(c) && RParen !in Tokens(c)
  {
    if c.More? { NoParens(c.rest); }
  }

  lemma {:induction false} SameTokens(g: Cond, h: Cond)
    requires Single(g) && Tokens(h) == Tokens(g)
    ensures h == g
  {
    var ts := Tokens(g);
    assert |ts| == 3;
    assert h.More? ==> |Tokens(h)| > 3;
    assert h.Last? && !h.atom.bang;
    assert OperandToken(h.atom.lhs) == Tokens(h)[0] && OperandToken(h.atom.rhs) == Tokens(h)[2];
    assert OperandToken(g.atom.lhs) == ts[0] && OperandToken(g.atom.rhs) == ts[2] && Tokens(h)[1] == ts[1];
  }

  lemma {:induction false} SingleLength(g: Cond)
    ensures Single(g) ==> |Tokens(g)| == 3
    ensures |Tokens(g)| == 3 && Tokens(g)[0].Variable? && Tokens(g)[2].Constant? ==> Single(g)
  {
    if g.Last? && !g.atom.bang {
      assert Tokens(g)[0] == OperandToken(g.atom.lhs) && Tokens(g)[2] == OperandToken(g.atom.rhs);
    }
  }

  lemma {:induction false} GroupAt(ts: seq<Token>, p: nat, g: Cond)
    requires p + |Group(g)| <= |ts| && ts[p..p + |Group(g)|] == Group(g)
    ensures |Group(g)| == |Tokens(g)| + 2 && ts[p] == LParen && ts[p + 1 + |Tokens(g)|] == RParen
    ensures forall k :: 0 <= k < |Tokens(g)| ==> ts[p + 1 + k] == Tokens(g)[k]
  {
    var w := ts[p..p + |Group(g)|];
    assert w[0] == ts[p] && w[1 + |Tokens(g)|] == ts[p + 1 + |Tokens(g)|];
    forall k | 0 <= k < |Tokens(g)| ensures ts[p + 1 + k] == Tokens(g)[k] {
      assert w[1 + k] == ts[p + 1 + k];
    }
  }

  /** Where a group starts, its shape can be read off. */
  lemma {:induction false} SingleAtGroup(ts: seq<Token>, p: nat, g: Cond)
    requires p + |Group(g)| <= |ts| && ts[p..p + |Group(g)|] == Group(g)
    ensures SingleAt(ts, p) <==> Single(g) && p + |Group(g)| < |ts|
  {
    GroupAt(ts, p, g);
    SingleLength(g);
    NoParens(g);
    if Single(g) {
      assert Tokens(g)[0] == OperandToken(g.atom.lhs) && Tokens(g)[2] == OperandToken(g.atom.rhs);
      assert ts[p + 1] == Tokens(g)[0] && ts[p + 2] == Tokens(g)[1] && ts[p + 3] == Tokens(g)[2];
    }
    assert |Tokens(g)| > 3 ==> ts[p + 4] == Tokens(g)[3];
    if SingleAt(ts, p) {
      assert ts[p + 1] == Tokens(g)[0] && ts[p + 3] == Tokens(g)[2];
    }
  }

  /** The group at q matches the single group at p exactly when the two are the same. */
  lemma {:induction false} MatchGroup(ts: seq<Token>, p: nat, q: nat, g: Cond, h: Cond)
    requires Single(g) && p + 6 <= q && q + |Group(h)| <= |ts|
    requires ts[p..p + 5] == Group(g) && ts[p + 5] == And && ts[q..q + |Group(h)|] == Group(h)
    ensures MatchAt(ts, p, q) <==> h == g
  {
    SingleLength(g);
    GroupAt(ts, p, g);
    GroupAt(ts, q, h);
    NoParens(h);
    if h == g {
      assert ts[q + 1] == Tokens(g)[0] == ts[p + 1];
      assert ts[q + 2] == Tokens(g)[1] == ts[p + 2];
      assert ts[q + 3] == Tokens(g)[2] == ts[p + 3];
      assert Tokens(g)[0] == OperandToken(g.atom.lhs) && Tokens(g)[2] == OperandToken(g.atom.rhs);
    }
    assert |Tokens(h)| > 3 ==> ts[q + 4] == Tokens(h)[3];
    if MatchAt(ts, p, q) {
      assert Tokens(h)[0] == ts[q + 1] == ts[p + 1] == Tokens(g)[0];
      assert Tokens(h)[1] == ts[q + 2] == ts[p + 2] == Tokens(g)[1];
      assert Tokens(h)[2] == ts[q + 3] == ts[p + 3] == Tokens(g)[2];
      assert Tokens(h) == Tokens(g);
      SameTokens(g, h);
    }
  }

  // ---------------------------------------------------------------- the inner loop

  lemma {:induction false} SearchSkip(ts: seq<Token>, p: nat, q: nat, n: nat)
    requires p + 5 < |ts| && p + 5 <= q <= n <= |ts|
    requires forall j :: q <= j < n ==> ts[j] != LParen
    ensures SearchFrom(ts, p, q) == SearchFrom(ts, p, n)
    decreases n - q
  {
    if q < n { SearchSkip(ts, p, q + 1, n); }
  }

  lemma {:induction false} SearchDone(ts: seq<Token>, p: nat, q: nat)
    requires p + 5 < |ts| && p + 5 <= q && ts[p + 1] == Nuked
    ensures SearchFrom(ts, p, q) == ts
    decreases |ts| - q
  {
    if q < |ts| { SearchDone(ts, p, q + 1); }
  }

  const SIX: seq<Token> := [Nuked, Nuked, Nuked, Nuked, Nuked, Nuked]

  function WithoutGroup(ts: seq<Token>, p: nat): (r: seq<Token>)
    requires p + 6 <= |ts|
    ensures |r| == |ts|
  {
    ts[..p] + SIX + ts[p + 6..]
  }

  lemma {:induction false} NukeIs(ts: seq<Token>, p: nat, q: nat)
    requires p + 5 < |ts| && p + 6 <= q && MatchAt(ts, p, q) && ts[p + 5] == And
    ensures Nuke(ts, p, q) == WithoutGroup(ts, p)
  {
    var r := Nuke(ts, p, q);
    assert r[p + 6..] == ts[p + 6..];
  }

  lemma {:induction false} GroupsHead(ts: seq<Token>, q: nat, hs: seq<Cond>)
    requires q <= |ts| && ts[q..] == Groups(hs) && |hs| > 0
    ensures q + |Group(hs[0])| <= |ts| && ts[q..q + |Group(hs[0])|] == Group(hs[0])
    ensures |hs| == 1 ==> q + |Group(hs[0])| == |ts|
    ensures |hs| > 1 ==> q + |Group(hs[0])| < |ts| && ts[q + |Group(hs[0])|] == And
    ensures |hs| > 1 ==> ts[q + |Group(hs[0])| + 1..] == Groups(hs[1..])
  {
    var n := |Group(hs[0])|;
    var w := ts[q..];
    assert w[..n] == Group(hs[0]);
    assert ts[q..q + n] == w[..n];
    if |hs| > 1 {
      assert w[n] == And && w[n + 1..] == Groups(hs[1..]);
      assert ts[q + n] == w[n] && ts[q + n + 1..] == w[n + 1..];
    }
  }

  lemma {:induction false} SearchOne(ts: seq<Token>, p: nat, q: nat)
    requires p + 5 < |ts| && p + 5 <= q && q + 4 < |ts| && !MatchAt(ts, p, q)
    ensures SearchFrom(ts, p, q) == SearchFrom(ts, p, q + 1)
  {
  }

  lemma {:induction false} InsideGroup(ts: seq<Token>, q: nat, h: Cond)
    requires q + |Group(h)| <= |ts| && ts[q..q + |Group(h)|] == Group(h)
    ensures |Group(h)| >= 5 && forall j :: q + 1 <= j < q + |Group(h)| ==> ts[j] != LParen
  {
    var n := |Group(h)|;
    GroupAt(ts, q, h);
    NoParens(h);
    forall j | q + 1 <= j < q + n ensures ts[j] != LParen {
      if j < q + n - 1 { assert ts[q + 1 + (j - q - 1)] == Tokens(h)[j - q - 1]; }
    }
  }

  /** A group that does not match is passed over. */
  lemma {:induction false} SearchPast(ts: seq<Token>, p: nat, q: nat, h: Cond)
    requires p + 6 <= q && q + |Group(h)| <= |ts| && ts[q..q + |Group(h)|] == Group(h) && !MatchAt(ts, p, q)
    ensures SearchFrom(ts, p, q) == SearchFrom(ts, p, q + |Group(h)|)
  {
    InsideGroup(ts, q, h);
    SearchOne(ts, p, q);
    SearchSkip(ts, p, q + 1, q + |Group(h)|);
  }

  lemma {:induction false} SearchHit(ts: seq<Token>, p: nat, q: nat)
    requires p + 5 < |ts| && p + 6 <= q && MatchAt(ts, p, q) && ts[p + 5] == And
    ensures SearchFrom(ts, p, q) == WithoutGroup(ts, p)
  {
    NukeIs(ts, p, q);
    SearchDone(Nuke(ts, p, q), p, q + 1);
  }

  lemma {:induction false} SearchNext(ts: seq<Token>, p: nat, q: nat, g: Cond, h: Cond)
    requires Single(g) && p + 6 <= q && q + |Group(h)| <= |ts| && h != g
    requires ts[p..p + 5] == Group(g) && ts[p + 5] == And && ts[q..q + |Group(h)|] == Group(h)
    ensures SearchFrom(ts, p, q) == SearchFrom(ts, p, q + |Group(h)|)
  {
    MatchGroup(ts, p, q, g, h);
    SearchPast(ts, p, q, h);
  }

  lemma {:induction false} SearchFound(ts: seq<Token>, p: nat, q: nat, g: Cond)
    requires Single(g) && p + 6 <= q && q + |Group(g)| <= |ts|
    requires ts[p..p + 5] == Group(g) && ts[p + 5] == And && ts[q..q + |Group(g)|] == Group(g)
    ensures SearchFrom(ts, p, q) == WithoutGroup(ts, p)
  {
    MatchGroup(ts, p, q, g, g);
    SearchHit(ts, p, q);
  }

  lemma {:induction false} SearchAnd(ts: seq<Token>, p: nat, q: nat)
    requires p + 6 <= q < |ts| && ts[q] == And
    ensures SearchFrom(ts, p, q) == SearchFrom(ts, p, q + 1)
  {
    SearchSkip(ts, p, q, q + 1);
  }

  predicate GroupIn(ts: seq<Token>, q: nat, h: Cond) { q + |Group(h)| <= |ts| && ts[q..q + |Group(h)|] == Group(h) }

  predicate AndIn(ts: seq<Token>, q: nat) { q < |ts| && ts[q] == And }

  /** How a search f for g gets along: past other groups, past &&, to w at g, and to the end. */
  ghost predicate SearchRules(ts: seq<Token>, g: Cond, from: nat, f: nat -> seq<Token>, w: seq<Token>) {
    && (forall q: nat, h {:trigger GroupIn(ts, q, h)} ::
          from <= q && GroupIn(ts, q, h) ==> f(q) == if h == g then w else f(q + |Group(h)|))
    && (forall q: nat {:trigger AndIn(ts, q)} :: from <= q && AndIn(ts, q) ==> f(q) == f(q + 1))
    && f(|ts|) == ts
  }

  lemma {:induction false} InFirst(hs: seq<Cond>, g: Cond)
    requires |hs| > 0
    ensures g in hs <==> g == hs[0] || g in hs[1..]
    ensures |hs| == 1 ==> (g in hs <==> g == hs[0])
  {
  }

  lemma {:induction false} WalkGroups(ts: seq<Token>, g: Cond, from: nat, q: nat, hs: seq<Cond>, f: nat -> seq<Token>,
                                      w: seq<Token>)
    requires SearchRules(ts, g, from, f, w) && from <= q <= |ts| && |hs| > 0 && ts[q..] == Groups(hs)
    ensures f(q) == if g in hs then w else ts
    decreases |hs|
  {
    var h := hs[0];
    var n := q + |Group(h)|;
    InFirst(hs, g);
    assert GroupIn(ts, q, h) by { GroupsHead(ts, q, hs); }
    if h != g {
      if |hs| > 1 {
        assert AndIn(ts, n) && ts[n + 1..] == Groups(hs[1..]) by { GroupsHead(ts, q, hs); }
        WalkGroups(ts, g, from, n + 1, hs[1..], f, w);
      } else {
        assert n == |ts| by { GroupsHead(ts, q, hs); }
      }
    }
  }

  lemma {:induction false} SearchFollows(ts: seq<Token>, p: nat, g: Cond, f: nat -> seq<Token>)
    requires Single(g) && p + 6 <= |ts| && ts[p..p + 5] == Group(g) && ts[p + 5] == And
    requires forall q: nat {:trigger f(q)} :: p + 6 <= q ==> f(q) == SearchFrom(ts, p, q)
    ensures SearchRules(ts, g, p + 6, f, WithoutGroup(ts, p))
  {
    forall q: nat, h | p + 6 <= q && GroupIn(ts, q, h)
      ensures f(q) == if h == g then WithoutGroup(ts, p) else f(q + |Group(h)|)
    {
      if h == g { SearchFound(ts, p, q, g); } else { SearchNext(ts, p, q, g, h); }
    }
    forall q: nat | p + 6 <= q && AndIn(ts, q) ensures f(q) == f(q + 1) { SearchAnd(ts, p, q); }
  }

  lemma {:induction false} SearchGroups(ts: seq<Token>, p: nat, q: nat, g: Cond, hs: seq<Cond>)
    requires Single(g) && p + 6 <= q <= |ts| && |hs| > 0 && ts[q..] == Groups(hs)
    requires ts[p..p + 5] == Group(g) && ts[p + 5] == And
    ensures SearchFrom(ts, p, q) == if g in hs then WithoutGroup(ts, p) else ts
  {
    var f := (k: nat) => if p + 6 <= k then SearchFrom(ts, p, k) else ts;
    SearchFollows(ts, p, g, f);
    WalkGroups(ts, g, p + 6, q, hs, f, WithoutGroup(ts, p));
  }

  // ---------------------------------------------------------------- the outer loop

  lemma {:induction false} DedupSkip(ts: seq<Token>, p: nat, n: nat)
    requires p <= n <= |ts|
    requires forall j :: p <= j < n ==> ts[j] != LParen
    ensures DedupFrom(ts, p) == DedupFrom(ts, n)
    decreases n - p
  {
    if p < n { DedupSkip(ts, p + 1, n); }
  }

  lemma {:induction false} DedupPast(ts: seq<Token>, p: nat, g: Cond)
    requires p + |Group(g)| <= |ts| && ts[p..p + |Group(g)|] == Group(g)
    requires SingleAt(ts, p) ==> SearchFrom(ts, p, p + 6) == ts
    ensures DedupFrom(ts, p) == DedupFrom(ts, p + |Group(g)|)
  {
    var n := |Group(g)|;
    GroupAt(ts, p, g);
    NoParens(g);
    forall j | p + 1 <= j < p + n ensures ts[j] != LParen {
      if j < p + n - 1 { assert ts[p + 1 + (j - p - 1)] == Tokens(g)[j - p - 1]; }
    }
    DedupSkip(ts, p + 1, p + n);
  }

  lemma {:induction false} DedupPastAnd(ts: seq<Token>, p: nat, g: Cond)
    requires p + |Group(g)| < |ts| && ts[p..p + |Group(g)|] == Group(g) && ts[p + |Group(g)|] == And
    requires SingleAt(ts, p) ==> SearchFrom(ts, p, p + 6) == ts
    ensures DedupFrom(ts, p) == DedupFrom(ts, p + |Group(g)| + 1)
  {
    DedupPast(ts, p, g);
    DedupSkip(ts, p + |Group(g)|, p + |Group(g)| + 1);
  }

  lemma {:induction false} DedupHit(ts: seq<Token>, p: nat)
    requires SingleAt(ts, p) && SearchFrom(ts, p, p + 6) == WithoutGroup(ts, p)
    ensures DedupFrom(ts, p) == DedupFrom(WithoutGroup(ts, p), p + 6)
  {
    var r := WithoutGroup(ts, p);
    forall j | p + 1 <= j < p + 6 ensures r[j] != LParen {
      assert r[j] == SIX[j - p];
    }
    DedupSkip(r, p + 1, p + 6);
  }

  lemma {:induction false} DedupLast(ts: seq<Token>, p: nat, g: Cond)
    requires p + |Group(g)| == |ts| && ts[p..] == Group(g)
    ensures DedupFrom(ts, p) == ts
  {
    assert ts[p..p + |Group(g)|] == ts[p..];
    SingleAtGroup(ts, p, g);
    DedupPast(ts, p, g);
  }

  lemma {:induction false} SearchFails(ts: seq<Token>, p: nat, g: Cond, rest: seq<Cond>)
    requires p + |Group(g)| < |ts| && ts[p..p + |Group(g)|] == Group(g) && ts[p + |Group(g)|] == And
    requires ts[p + |Group(g)| + 1..] == Groups(rest) && |rest| > 0 && !(Single(g) && g in rest)
    ensures SingleAt(ts, p) ==> SearchFrom(ts, p, p + 6) == ts
  {
    SingleAtGroup(ts, p, g);
    if SingleAt(ts, p) {
      SingleLength(g);
      SearchGroups(ts, p, p + 6, g, rest);
    }
  }

  lemma {:induction false} DedupStays(ts: seq<Token>, p: nat, g: Cond, rest: seq<Cond>)
    requires p <= |ts| && ts[p..] == Group(g) + [And] + Groups(rest) && |rest| > 0 && !(Single(g) && g in rest)
    ensures p + |Group(g)| < |ts| && DedupFrom(ts, p) == DedupFrom(ts, p + |Group(g)| + 1)
  {
    var n := |Group(g)|;
    var w := ts[p..];
    assert ts[p..p + n] == w[..n] == Group(g);
    assert ts[p + n] == w[n] == And;
    assert ts[p + n + 1..] == w[n + 1..] == Groups(rest);
    SearchFails(ts, p, g, rest);
    DedupPastAnd(ts, p, g);
  }

  lemma {:induction false} LiveGroupAnd(ts: seq<Token>, p: nat, g: Cond)
    requires p + |Group(g)| < |ts| && ts[p..p + |Group(g)|] == Group(g) && ts[p + |Group(g)|] == And
    ensures Live(ts[..p + |Group(g)| + 1]) == Live(ts[..p]) + Group(g) + [And]
  {
    assert ts[..p + |Group(g)| + 1] == ts[..p] + Group(g) + [And];
    assert Group(g) == Groups([g]);
    LiveGroups([g]);
    LiveConcat(ts[..p] + Group(g), [And]);
    LiveConcat(ts[..p], Group(g));
  }

  lemma {:induction false} FirstStays(ts: seq<Token>, p: nat, g: Cond, rest: seq<Cond>, n: nat)
    requires p <= |ts| && ts[p..] == Group(g) + [And] + Groups(rest) && |rest| > 0 && !(Single(g) && g in rest)
    requires n == p + |Group(g)| + 1
    ensures n <= |ts| && DedupFrom(ts, p) == DedupFrom(ts, n) && ts[n..] == Groups(rest)
    ensures Live(ts[..n]) == Live(ts[..p]) + Group(g) + [And]
  {
    DedupStays(ts, p, g, rest);
    var w := ts[p..];
    assert ts[p..n - 1] == w[..n - 1 - p] == Group(g);
    assert ts[n - 1] == w[n - 1 - p] == And;
    assert ts[n..] == w[n - p..] == Groups(rest);
    LiveGroupAnd(ts, p, g);
  }

  lemma {:induction false} DedupGoes(ts: seq<Token>, p: nat, gs: seq<Cond>)
    requires p <= |ts| && ts[p..] == Groups(gs) && |gs| > 1 && Single(gs[0]) && gs[0] in gs[1..]
    ensures p + 6 <= |ts| && DedupFrom(ts, p) == DedupFrom(WithoutGroup(ts, p), p + 6)
    ensures WithoutGroup(ts, p)[p + 6..] == Groups(gs[1..])
  {
    GroupsHead(ts, p, gs);
    SingleAtGroup(ts, p, gs[0]);
    SingleLength(gs[0]);
    SearchGroups(ts, p, p + 6, gs[0], gs[1..]);
    DedupHit(ts, p);
  }

  lemma {:induction false} GroupsCons(g: Cond, gs: seq<Cond>)
    requires |gs| > 0
    ensures Groups([g] + gs) == Group(g) + [And] + Groups(gs)
  {
    assert ([g] + gs)[1..] == gs;
  }

  lemma {:induction false} DistinctStays(gs: seq<Cond>)
    requires |gs| > 1 && !(Single(gs[0]) && gs[0] in gs[1..])
    ensures Groups(Distinct(gs)) == Group(gs[0]) + [And] + Groups(Distinct(gs[1..]))
  {
    GroupsCons(gs[0], Distinct(gs[1..]));
  }

  lemma {:induction false} LiveTail(ts: seq<Token>, p: nat, gs: seq<Cond>)
    requires p <= |ts| && ts[p..] == Groups(gs)
    ensures Live(ts) == Live(ts[..p]) + Groups(gs)
  {
    assert ts == ts[..p] + ts[p..];
    LiveConcat(ts[..p], ts[p..]);
    LiveGroups(gs);
  }

  lemma {:induction false} LiveSix(ts: seq<Token>, p: nat)
    requires p + 6 <= |ts|
    ensures Live(WithoutGroup(ts, p)[..p + 6]) == Live(ts[..p])
  {
    assert WithoutGroup(ts, p)[..p + 6] == ts[..p] + SIX;
    LiveConcat(ts[..p], SIX);
    assert Live(SIX) == Live(SIX[1..]) == Live(SIX[2..]) == Live(SIX[3..]) == Live(SIX[4..]) == Live(SIX[5..]) == [];
  }

  lemma {:induction false} Reassociate(a: seq<Token>, b: seq<Token>, c: seq<Token>, d: seq<Token>)
    ensures (a + b + c) + d == a + (b + c + d)
  {
  }

  /** The chain of groups, after a part already done, becomes the chain of the distinct groups. */
  lemma {:induction false} DedupGroups(ts: seq<Token>, p: nat, gs: seq<Cond>)
    requires p <= |ts| && ts[p..] == Groups(gs)
    ensures Live(DedupFrom(ts, p)) == Live(ts[..p]) + Groups(Distinct(gs))
    decreases |gs|
  {
    if |gs| == 0 {
      assert ts[..p] == ts;
    } else if |gs| == 1 {
      DedupLast(ts, p, gs[0]);
      LiveTail(ts, p, gs);
      assert Distinct(gs) == gs;
    } else if Single(gs[0]) && gs[0] in gs[1..] {
      DedupGoes(ts, p, gs);
      DedupGroups(WithoutGroup(ts, p), p + 6, gs[1..]);
      LiveSix(ts, p);
    } else {
      var n := p + |Group(gs[0])| + 1;
      FirstStays(ts, p, gs[0], gs[1..], n);
      DedupGroups(ts, n, gs[1..]);
      DistinctStays(gs);
      Reassociate(Live(ts[..p]), Group(gs[0]), [And], Groups(Distinct(gs[1..])));
    }
  }
}
