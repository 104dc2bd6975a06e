// Whole config scripts: what fix_conditionals attaches to each statement.
module TkProgram {
  import opened Lists
  import opened Conditions
  import opened TkCond
  import opened TkMeaning
  import opened TkDuplicates

  // ---------------------------------------------------------------- scripts

  /** A statement as tkparse.c reads it. A dependency list is a conjunction of conditions in parentheses. */
  datatype Line =
    | IfLine(cond: Cond)
    | ElseLine
    | FiLine
    | PlainLine(keyword: Keyword, name: string)
    | DepLine(keyword: Keyword, name: string, deps: seq<Cond>)

  ghost predicate ValidLine(l: Line) {
    match l
    case IfLine(c) => Raw(c)
    case ElseLine => true
    case FiLine => true
    case PlainLine(k, name) => k != KIf && k != KElse && k != KFi && !Dependent(k)
    case DepLine(k, name, deps) => Dependent(k) && AllPlain(deps)
  }

  function Lower(l: Line): Stmt {
    match l
    case IfLine(c) => Stmt(KIf, "", Tokens(c))
    case ElseLine => Stmt(KElse, "", [])
    case FiLine => Stmt(KFi, "", [])
    case PlainLine(k, name) => Stmt(k, name, [])
    case DepLine(k, name, deps) => Stmt(k, name, Groups(deps))
  }

  /** An open if: its condition, and whether its else has been passed. */
  datatype Frame = Frame(cond: Cond, inElse: bool)

  function FramesAfter(fs: seq<Frame>, l: Line): seq<Frame> {
    if l.IfLine? then fs + [Frame(l.cond, false)]
    else if l.ElseLine? && |fs| > 0 then fs[..|fs| - 1] + [fs[|fs| - 1].(inElse := true)]
    else if l.FiLine? && |fs| > 0 then fs[..|fs| - 1]
    else fs
  }

  /** The ifs that enclose line i. */
  function FramesAt(src: seq<Line>, i: nat): seq<Frame>
    requires i <= |src|
  {
    if i == 0 then [] else FramesAfter(FramesAt(src, i - 1), src[i - 1])
  }

  /** Every enclosing branch is the one taken. */
  ghost predicate Enclosed(env: Env, fs: seq<Frame>) {
    forall k :: 0 <= k < |fs| ==> Truth(env, fs[k].cond) != fs[k].inElse
  }

  /** Lines nest, an if has at most one else, and the open ifs and a line's dependencies fit into cond_stack. */
  ghost predicate LineFits(fs: seq<Frame>, l: Line) {
    && ValidLine(l)
    && (l.IfLine? || (l.DepLine? && l.deps != []) ==> |fs| < 32)
    && (l.ElseLine? ==> |fs| > 0 && !fs[|fs| - 1].inElse)
    && (l.FiLine? ==> |fs| > 0)
  }

  ghost predicate WellFormed(src: seq<Line>) {
    forall i {:trigger LineFits(FramesAt(src, i), src[i])} :: 0 <= i < |src| ==> LineFits(FramesAt(src, i), src[i])
  }

  /** No condition is decided wrongly, and no condition that still mixes -a with -o gets an else. */
  ghost predicate LineSafe(fs: seq<Frame>, l: Line, arch: string, defined: set<string>) {
    && (l.IfLine? ==> ElimSafe(l.cond, arch, defined))
    && (l.ElseLine? && |fs| > 0 ==>
          var e := Elim(fs[|fs| - 1].cond, arch, defined); e.Keep? ==> !Mixed(e.cond))
  }

  ghost predicate SafeScript(src: seq<Line>, arch: string, defined: set<string>) {
    forall i {:trigger LineSafe(FramesAt(src, i), src[i], arch, defined)} ::
      0 <= i < |src| ==> LineSafe(FramesAt(src, i), src[i], arch, defined)
  }

  // ---------------------------------------------------------------- what an open if is compiled to

  function UnbangEntry(e: Entry): Entry { if e.Keep? then Keep(Unbang(e.cond)) else e }

  function InvertEntry(e: Entry): Entry {
    match e
    case Always => Never
    case Never => Always
    case Keep(c) => Keep(Invert(c))
  }

  function Compiled(f: Frame, arch: string, defined: set<string>): Entry {
    var e := UnbangEntry(Elim(f.cond, arch, defined));
    if f.inElse then InvertEntry(e) else e
  }

  lemma {:induction false} ElimKeeps(c: Cond, arch: string, defined: set<string>)
    ensures var e := Elim(c, arch, defined);
            e.Keep? ==> (Raw(c) ==> Raw(e.cond)) && (HasOr(e.cond) ==> HasOr(c)) && (HasAnd(e.cond) ==> HasAnd(c))
  {
    if c.More? { ElimKeeps(c.rest, arch, defined); }
  }

  lemma {:induction false} EntryBangFree(e: Entry)
    ensures BangFree(EntryTokens(e)) == EntryTokens(UnbangEntry(e))
  {
    if e.Keep? {
      BangFreeTokens(e.cond);
    } else {
      assert EntryTokens(e)[1..] == [];
    }
  }

  lemma {:induction false} EntryInverted(e: Entry)
    requires e.Keep? ==> Plain(e.cond)
    ensures Inverted(EntryTokens(e)) == EntryTokens(InvertEntry(e))
  {
    if e.Keep? {
      InvertedTokens(e.cond);
    } else {
      assert EntryTokens(e)[1..] == [];
    }
  }

  lemma {:induction false} ElseCompiled(f: Frame, arch: string, defined: set<string>)
    requires !f.inElse
    ensures Inverted(EntryTokens(Compiled(f, arch, defined))) ==
            EntryTokens(Compiled(f.(inElse := true), arch, defined))
  {
    var e := Elim(f.cond, arch, defined);
    if e.Keep? { UnbangTruth(_ => "", e.cond); }
    EntryInverted(UnbangEntry(e));
  }

  /** When a compiled condition is true: what is left of it is, or in its else a stretch joined by -o fails. */
  predicate Holds(env: Env, f: Frame, arch: string, defined: set<string>) {
    match Elim(f.cond, arch, defined)
    case Always => !f.inElse
    case Never => f.inElse
    case Keep(c) => if f.inElse then RunFails(env, c) else Truth(env, c)
  }

  lemma {:induction false} CompiledHolds(env: Env, f: Frame, arch: string, defined: set<string>)
    requires Raw(f.cond)
    ensures EntryTrue(env, Compiled(f, arch, defined)) == Holds(env, f, arch, defined)
    ensures Compiled(f, arch, defined).Keep? ==> Plain(Compiled(f, arch, defined).cond)
  {
    ElimKeeps(f.cond, arch, defined);
    var e := Elim(f.cond, arch, defined);
    if e.Keep? {
      UnbangTruth(env, e.cond);
      UnbangRuns(env, e.cond);
      InvertMeans(env, Unbang(e.cond));
    }
  }

  /** The branch is compiled rightly: its condition is false, or it is decided safely and no stretch of it fails. */
  predicate Right(env: Env, f: Frame, arch: string, defined: set<string>) {
    var e := Elim(f.cond, arch, defined);
    !Truth(env, f.cond) || (ElimSafe(f.cond, arch, defined) && !(f.inElse && e.Keep? && RunFails(env, e.cond)))
  }

  /** A compiled condition has the truth of its branch exactly when it is compiled rightly. */
  lemma {:induction false} HoldsExact(env: Env, f: Frame, arch: string, defined: set<string>)
    requires Raw(f.cond) && Legal(env, arch, defined)
    ensures Holds(env, f, arch, defined) == (Truth(env, f.cond) != f.inElse) <==> Right(env, f, arch, defined)
  {
    ElimExact(env, f.cond, arch, defined);
    var e := Elim(f.cond, arch, defined);
    if !ElimSafe(f.cond, arch, defined) { UnsafeIsNever(f.cond, arch, defined); }
    if e.Keep? { TrueOrRunFails(env, e.cond); }
  }

  /** Without mixing, a condition that is decided safely is compiled rightly. */
  lemma {:induction false} CompiledTruth(env: Env, f: Frame, arch: string, defined: set<string>)
    requires Raw(f.cond) && Legal(env, arch, defined) && ElimSafe(f.cond, arch, defined)
    requires f.inElse ==> var e := Elim(f.cond, arch, defined); e.Keep? ==> !Mixed(e.cond)
    ensures EntryTrue(env, Compiled(f, arch, defined)) == (Truth(env, f.cond) != f.inElse)
    ensures Holds(env, f, arch, defined) == (Truth(env, f.cond) != f.inElse)
  {
    ElimExact(env, f.cond, arch, defined);
    ElimKeeps(f.cond, arch, defined);
    CompiledHolds(env, f, arch, defined);
    var e := Elim(f.cond, arch, defined);
    if e.Keep? {
      UnbangTruth(env, e.cond);
      if f.inElse { InvertTruth(env, Unbang(e.cond)); }
    }
  }

  // ---------------------------------------------------------------- joining compiled conditions

  function AllTokens(es: seq<Entry>): (r: Stack)
    ensures |r| == |es| && NonEmpty(r)
  {
    if |es| == 0 then [] else [EntryTokens(es[0])] + AllTokens(es[1..])
  }

  lemma {:induction false} AllTokensAt(es: seq<Entry>, k: nat)
    requires k < |es|
    ensures AllTokens(es)[k] == EntryTokens(es[k])
  {
    if k > 0 { AllTokensAt(es[1..], k - 1); }
  }

  /** The conditions that have to be tested. */
  function Tested(es: seq<Entry>): seq<Cond> {
    if |es| == 0 then [] else (if es[0].Keep? then [es[0].cond] else []) + Tested(es[1..])
  }

  lemma {:induction false} GroupsConcat(a: seq<Cond>, b: seq<Cond>)
    requires |a| > 0 && |b| > 0
    ensures Groups(a + b) == Groups(a) + [And] + Groups(b)
  {
    assert (a + b)[1..] == a[1..] + b;
    if |a| > 1 {
      GroupsConcat(a[1..], b);
    } else {
      assert a[1..] + b == b;
    }
  }

  lemma {:induction false} GroupsStart(gs: seq<Cond>)
    requires |gs| > 0
    ensures Groups(gs) != [] && Groups(gs)[0] == LParen
  {
  }

  lemma {:induction false} TokensStart(c: Cond)
    ensures Tokens(c)[0].Variable? || Tokens(c)[0].Constant? || Tokens(c)[0] == Bang
  {
  }

  lemma {:induction false} JoinConcat(acc: seq<Token>, a: Stack, b: Stack)
    requires NonEmpty(a) && NonEmpty(b)
    ensures NonEmpty(a + b) && JoinFrom(acc, a + b) == JoinFrom(JoinFrom(acc, a), b)
    decreases |a|
  {
    if |a| == 0 {
      assert a + b == b;
    } else {
      assert (a + b)[1..] == a[1..] + b && (a + b)[0] == a[0];
      if a[0][0] == True {
        JoinConcat(acc, a[1..], b);
      } else {
        JoinConcat(acc + (if acc == [] then [] else [And]) + Wrapped(a[0]), a[1..], b);
      }
    }
  }

  lemma {:induction false} TokensFirst(es: seq<Entry>)
    requires |es| > 0
    ensures AllTokens(es)[0] == EntryTokens(es[0]) && AllTokens(es)[1..] == AllTokens(es[1..])
  {
  }

  lemma {:induction false} JoinSkip(acc: seq<Token>, all: Stack)
    requires NonEmpty(all) && |all| > 0 && all[0][0] == True
    ensures JoinFrom(acc, all) == JoinFrom(acc, all[1..])
  {
  }

  lemma {:induction false} TestedFirst(done: seq<Cond>, es: seq<Entry>)
    requires |es| > 0
    ensures es[0].Keep? ==> done + Tested(es) == (done + [es[0].cond]) + Tested(es[1..])
    ensures !es[0].Keep? ==> Tested(es) == Tested(es[1..])
  {
  }

  lemma {:induction false} JoinOne(done: seq<Cond>, c: Cond)
    ensures Groups(done) + (if Groups(done) == [] then [] else [And]) + Group(c) == Groups(done + [c])
  {
    if done == [] {
      assert done + [c] == [c];
    } else {
      GroupsStart(done);
      GroupsConcat(done, [c]);
    }
  }

  lemma {:induction false} JoinKeep(done: seq<Cond>, c: Cond, all: Stack)
    requires NonEmpty(all) && |all| > 0 && all[0] == Tokens(c)
    ensures JoinFrom(Groups(done), all) == JoinFrom(Groups(done + [c]), all[1..])
  {
    TokensStart(c);
    JoinOne(done, c);
  }

  /** Joining adds the conditions to be tested, each in parentheses. */
  lemma {:induction false} JoinEntries(done: seq<Cond>, es: seq<Entry>)
    requires Never !in es
    ensures JoinFrom(Groups(done), AllTokens(es)) == Groups(done + Tested(es))
    decreases |es|
  {
    if |es| == 0 {
      assert done + Tested(es) == done;
    } else {
      TokensFirst(es);
      TestedFirst(done, es);
      if es[0].Keep? {
        JoinKeep(done, es[0].cond, AllTokens(es));
        JoinEntries(done + [es[0].cond], es[1..]);
      } else {
        JoinSkip(Groups(done), AllTokens(es));
        JoinEntries(done, es[1..]);
      }
    }
  }

  lemma {:induction false} JoinDeps(done: seq<Cond>, deps: seq<Cond>, tail: Stack)
    requires tail == if deps == [] then [] else [Groups(deps)]
    requires NonEmpty(tail)
    ensures JoinFrom(Groups(done), tail) == Groups(done + deps)
  {
    if deps == [] {
      assert done + deps == done;
    } else {
      GroupsStart(deps);
      assert tail[1..] == [];
      var acc := Groups(done) + (if Groups(done) == [] then [] else [And]) + Groups(deps);
      assert JoinFrom(Groups(done), tail) == acc;
      if done == [] {
        assert done + deps == deps;
      } else {
        GroupsStart(done);
        GroupsConcat(done, deps);
      }
    }
  }

  // ---------------------------------------------------------------- the chain of a statement

  ghost predicate AllEntriesTrue(env: Env, es: seq<Entry>) {
    forall k :: 0 <= k < |es| ==> EntryTrue(env, es[k])
  }

  lemma {:induction false} AllTrueConcat(env: Env, a: seq<Cond>, b: seq<Cond>)
    ensures AllTrue(env, a + b) == (AllTrue(env, a) && AllTrue(env, b))
    ensures AllPlain(a) && AllPlain(b) ==> AllPlain(a + b)
  {
    if AllTrue(env, a + b) {
      forall i | 0 <= i < |a| ensures Truth(env, a[i]) {
        assert a[i] == (a + b)[i];
      }
      forall i | 0 <= i < |b| ensures Truth(env, b[i]) { assert b[i] == (a + b)[|a| + i]; }
    }
  }

  lemma {:induction false} TestedTrue(env: Env, es: seq<Entry>)
    requires Never !in es
    ensures AllTrue(env, Tested(es)) == AllEntriesTrue(env, es)
  {
    if |es| > 0 {
      TestedTrue(env, es[1..]);
      var head := if es[0].Keep? then [es[0].cond] else [];
      assert AllTrue(env, Tested(es)) == (AllTrue(env, head) && AllTrue(env, Tested(es[1..]))) by {
        AllTrueConcat(env, head, Tested(es[1..]));
      }
      assert AllTrue(env, head) == EntryTrue(env, es[0]);
      if EntryTrue(env, es[0]) && AllEntriesTrue(env, es[1..]) {
        forall k | 0 <= k < |es| ensures EntryTrue(env, es[k]) {
          if k > 0 { assert es[k] == es[1..][k - 1]; }
        }
      }
    }
  }

  lemma {:induction false} TestedPlain(es: seq<Entry>)
    requires forall k :: 0 <= k < |es| ==> es[k].Keep? ==> Plain(es[k].cond)
    ensures AllPlain(Tested(es))
  {
    if |es| > 0 { TestedPlain(es[1..]); }
  }

  /** Removing duplicates from a chain of groups keeps its value. */
  lemma {:induction false} DedupValue(env: Env, gs: seq<Cond>)
    requires AllPlain(gs)
    ensures ChainValue(env, DedupFrom(Groups(gs), 0)) == Some(AllTrue(env, gs))
    ensures var r := DedupFrom(Groups(gs), 0); r != [] ==> r[0] != False
  {
    var ts := Groups(gs);
    var r := DedupFrom(ts, 0);
    if gs != [] {
      assert ts[..0] == [] && ts[0..] == ts;
      DedupGroups(ts, 0, gs);
      DistinctTrue(env, gs);
      GroupsStart(Distinct(gs));
      GroupsValue(env, Distinct(gs));
      LiveGroups(Distinct(gs));
      assert Live(r) == Groups(Distinct(gs));
    }
  }

  lemma {:induction false} JoinedEntries(es: seq<Entry>, deps: seq<Cond>, tail: Stack)
    requires tail == if deps == [] then [] else [Groups(deps)]
    ensures NonEmpty(AllTokens(es) + tail)
    ensures Never in es ==> Joined(AllTokens(es) + tail) == [False]
    ensures Never !in es ==> Joined(AllTokens(es) + tail) == DedupFrom(Groups(Tested(es) + deps), 0)
  {
    if deps != [] { GroupsStart(deps); }
    var all := AllTokens(es) + tail;
    if Never in es {
      var k :| 0 <= k < |es| && es[k] == Never;
      AllTokensAt(es, k);
      assert all[k][0] == False;
    } else {
      forall i | 0 <= i < |all| ensures all[i][0] != False {
        if i < |es| {
          AllTokensAt(es, i);
          if es[i].Keep? { TokensStart(es[i].cond); }
        }
      }
      JoinConcat([], AllTokens(es), tail);
      JoinEntries([], es);
      assert [] + Tested(es) == Tested(es);
      JoinDeps(Tested(es), deps, tail);
    }
  }

  /** The chain made of compiled conditions and dependencies: false for good, or true exactly when all of them are. */
  lemma {:induction false} ChainOfEntries(env: Env, es: seq<Entry>, deps: seq<Cond>, tail: Stack, s: Stmt)
    requires tail == if deps == [] then [] else [Groups(deps)]
    requires AllPlain(deps) && forall k :: 0 <= k < |es| ==> es[k].Keep? ==> Plain(es[k].cond)
    ensures NonEmpty(AllTokens(es) + tail)
    ensures var v := Kept(s, Joined(AllTokens(es) + tail));
            if v.None? then !AllEntriesTrue(env, es)
            else v.value.keyword == s.keyword && v.value.name == s.name
                 && ChainValue(env, v.value.cond) == Some(AllEntriesTrue(env, es) && AllTrue(env, deps))
  {
    JoinedEntries(es, deps, tail);
    if Never in es {
      var k :| 0 <= k < |es| && es[k] == Never;
      assert !EntryTrue(env, es[k]);
    } else {
      TestedPlain(es);
      AllTrueConcat(env, Tested(es), deps);
      TestedTrue(env, es);
      DedupValue(env, Tested(es) + deps);
    }
  }

  // ---------------------------------------------------------------- the stack over a whole script

  function EntriesOf(fs: seq<Frame>, arch: string, defined: set<string>): (es: seq<Entry>)
    ensures |es| == |fs| && forall k :: 0 <= k < |fs| ==> es[k] == Compiled(fs[k], arch, defined)
  {
    seq(|fs|, k requires 0 <= k < |fs| => Compiled(fs[k], arch, defined))
  }

  function StackOf(fs: seq<Frame>, arch: string, defined: set<string>): (r: Stack)
    ensures |r| == |fs| && NonEmpty(r)
  {
    AllTokens(EntriesOf(fs, arch, defined))
  }

  lemma {:induction false} StackEntries(fs: seq<Frame>, arch: string, defined: set<string>)
    ensures forall k :: 0 <= k < |fs| ==> StackOf(fs, arch, defined)[k] == EntryTokens(Compiled(fs[k], arch, defined))
  {
    forall k | 0 <= k < |fs| ensures StackOf(fs, arch, defined)[k] == EntryTokens(Compiled(fs[k], arch, defined)) {
      AllTokensAt(EntriesOf(fs, arch, defined), k);
    }
  }

  lemma {:induction false} StackPush(fs: seq<Frame>, f: Frame, arch: string, defined: set<string>)
    ensures StackOf(fs + [f], arch, defined) == StackOf(fs, arch, defined) + [EntryTokens(Compiled(f, arch, defined))]
  {
    StackEntries(fs, arch, defined);
    StackEntries(fs + [f], arch, defined);
  }

  lemma {:induction false} StackPop(fs: seq<Frame>, arch: string, defined: set<string>)
    requires |fs| > 0
    ensures StackOf(fs[..|fs| - 1], arch, defined) == StackOf(fs, arch, defined)[..|fs| - 1]
  {
    StackEntries(fs, arch, defined);
    StackEntries(fs[..|fs| - 1], arch, defined);
  }

  lemma {:induction false} GroupsEnd(gs: seq<Cond>)
    requires |gs| > 0
    ensures Groups(gs) != [] && Groups(gs)[|Groups(gs)| - 1] == RParen
  {
    if |gs| > 1 { GroupsEnd(gs[1..]); }
  }

  lemma {:induction false} LowerFits(fs: seq<Frame>, l: Line)
    requires LineFits(fs, l)
    ensures Fits(|fs|, Lower(l)) && DepthAfter(|fs|, Lower(l)) == |FramesAfter(fs, l)|
  {
    if l.IfLine? { LastToken(l.cond); }
    if l.DepLine? && l.deps != [] { GroupsEnd(l.deps); }
  }

  function LowerAll(src: seq<Line>): (r: seq<Stmt>)
    ensures |r| == |src| && forall i :: 0 <= i < |src| ==> r[i] == Lower(src[i])
  {
    seq(|src|, i requires 0 <= i < |src| => Lower(src[i]))
  }

  lemma {:induction false} Depths(src: seq<Line>, i: nat)
    requires WellFormed(src) && i <= |src|
    ensures DepthAt(LowerAll(src), i) == |FramesAt(src, i)|
  {
    if i > 0 {
      Depths(src, i - 1);
      LowerFits(FramesAt(src, i - 1), src[i - 1]);
    }
  }

  lemma {:induction false} Nested(src: seq<Line>)
    requires WellFormed(src)
    ensures WellNested(LowerAll(src))
  {
    forall i | 0 <= i < |src| ensures Fits(DepthAt(LowerAll(src), i), LowerAll(src)[i]) {
      Depths(src, i);
      LowerFits(FramesAt(src, i), src[i]);
    }
  }

  lemma {:induction false} StepIf(fs: seq<Frame>, c: Cond, arch: string, defined: set<string>)
    requires Raw(c) && |fs| < 32
    ensures var s := Stmt(KIf, "", Tokens(c));
            Fits(|fs|, s) && Step(StackOf(fs, arch, defined), s, arch, defined) ==
              Next(StackOf(fs + [Frame(c, false)], arch, defined), Some(Stmt(KIf, "", [])))
  {
    LastToken(c);
    EliminatedTokens(c, arch, defined);
    EntryBangFree(Elim(c, arch, defined));
    StackPush(fs, Frame(c, false), arch, defined);
  }

  lemma {:induction false} StepElse(fs: seq<Frame>, arch: string, defined: set<string>)
    requires |fs| > 0 && !fs[|fs| - 1].inElse
    ensures Step(StackOf(fs, arch, defined), Stmt(KElse, "", []), arch, defined) ==
              Next(StackOf(FramesAfter(fs, ElseLine), arch, defined), Some(Stmt(KElse, "", [])))
  {
    var n := |fs| - 1;
    ElseCompiled(fs[n], arch, defined);
    StackEntries(fs, arch, defined);
    StackPop(fs, arch, defined);
    StackPush(fs[..n], fs[n].(inElse := true), arch, defined);
  }

  lemma {:induction false} StepFi(fs: seq<Frame>, arch: string, defined: set<string>)
    requires |fs| > 0
    ensures Step(StackOf(fs, arch, defined), Stmt(KFi, "", []), arch, defined) ==
              Next(StackOf(FramesAfter(fs, FiLine), arch, defined), Some(Stmt(KFi, "", [])))
  {
    StackPop(fs, arch, defined);
  }

  lemma {:induction false} EliminatedGroups(deps: seq<Cond>, arch: string, defined: set<string>)
    requires |deps| > 0
    ensures Closed(Groups(deps)) && Eliminated(Groups(deps), arch, defined) == Chain(Groups(deps))
  {
    GroupsEnd(deps);
    GroupsStart(deps);
  }

  /** The lines that take the enclosing conditions. */
  predicate Conditional(l: Line) { l.DepLine? || (l.PlainLine? && Simple(l.keyword)) }

  function DepsOf(l: Line): seq<Cond> { if l.DepLine? then l.deps else [] }

  lemma {:induction false} StepConditional(fs: seq<Frame>, l: Line, arch: string, defined: set<string>, stack: Stack,
                                           tail: Stack)
    requires LineFits(fs, l) && Conditional(l) && stack == StackOf(fs, arch, defined)
    requires tail == if DepsOf(l) == [] then [] else [Groups(DepsOf(l))]
    ensures Fits(|fs|, Lower(l)) && NonEmpty(stack + tail)
    ensures Step(stack, Lower(l), arch, defined) == Next(stack, Kept(Lower(l), Joined(stack + tail)))
  {
    LowerFits(fs, l);
    if DepsOf(l) == [] {
      assert stack + tail == stack;
    } else {
      EliminatedGroups(l.deps, arch, defined);
    }
  }

  lemma {:induction false} StepOther(fs: seq<Frame>, l: Line, arch: string, defined: set<string>)
    requires LineFits(fs, l) && l.PlainLine? && !Simple(l.keyword)
    ensures Fits(|fs|, Lower(l))
    ensures Step(StackOf(fs, arch, defined), Lower(l), arch, defined) ==
            Next(StackOf(fs, arch, defined), Some(Lower(l)))
  {
  }

  lemma {:induction false} StepTracks(fs: seq<Frame>, l: Line, arch: string, defined: set<string>)
    requires LineFits(fs, l)
    ensures Fits(|fs|, Lower(l))
    ensures var r := Step(StackOf(fs, arch, defined), Lower(l), arch, defined);
            r.Next? && r.stack == StackOf(FramesAfter(fs, l), arch, defined)
  {
    LowerFits(fs, l);
    match l
    case IfLine(c) => StepIf(fs, c, arch, defined);
    case ElseLine => StepElse(fs, arch, defined);
    case FiLine => StepFi(fs, arch, defined);
    case PlainLine(_, _) =>
      if Conditional(l) {
        StepConditional(fs, l, arch, defined, StackOf(fs, arch, defined), []);
      } else {
        StepOther(fs, l, arch, defined);
      }
    case DepLine(_, _, deps) =>
      StepConditional(fs, l, arch, defined, StackOf(fs, arch, defined), if deps == [] then [] else [Groups(deps)]);
  }

  // ---------------------------------------------------------------- the main result

  lemma {:induction false} StepperTracks(step: StepFunction, fs: seq<Frame>, l: Line, arch: string,
                                         defined: set<string>)
    requires LineFits(fs, l) && Steps(step, arch, defined)
    ensures var r := step(StackOf(fs, arch, defined), Lower(l));
            r.Next? && r.stack == StackOf(FramesAfter(fs, l), arch, defined)
  {
    StepTracks(fs, l, arch, defined);
  }

  lemma {:induction false} TracksOn(step: StepFunction, src: seq<Line>, n: nat, fs: seq<Frame>, arch: string,
                                    defined: set<string>)
    requires n < |src| && LineFits(fs, src[n]) && Steps(step, arch, defined)
    requires StackAt(step, LowerAll(src), n) == Some(StackOf(fs, arch, defined))
    ensures StackAt(step, LowerAll(src), n + 1) == Some(StackOf(FramesAfter(fs, src[n]), arch, defined))
  {
    var stack := StackOf(fs, arch, defined);
    StepperTracks(step, fs, src[n], arch, defined);
    NextStack(step, LowerAll(src), n, stack, step(stack, Lower(src[n])));
  }

  /** Before line n the stack holds the compiled conditions of the open ifs; the script is never given up. */
  lemma {:induction false} Tracks(step: StepFunction, src: seq<Line>, n: nat, arch: string, defined: set<string>)
    requires WellFormed(src) && Steps(step, arch, defined) && n <= |src|
    ensures StackAt(step, LowerAll(src), n) == Some(StackOf(FramesAt(src, n), arch, defined))
  {
    if n > 0 {
      Tracks(step, src, n - 1, arch, defined);
      assert LineFits(FramesAt(src, n - 1), src[n - 1]);
      TracksOn(step, src, n - 1, FramesAt(src, n - 1), arch, defined);
    }
  }

  /** All enclosing conditions hold as compiled. */
  ghost predicate AllHold(env: Env, fs: seq<Frame>, arch: string, defined: set<string>) {
    forall k :: 0 <= k < |fs| ==> Holds(env, fs[k], arch, defined)
  }

  ghost predicate RawFrames(fs: seq<Frame>) { forall k :: 0 <= k < |fs| ==> Raw(fs[k].cond) }

  lemma {:induction false} FramesRaw(src: seq<Line>, i: nat)
    requires WellFormed(src) && i <= |src|
    ensures RawFrames(FramesAt(src, i))
  {
    if i > 0 {
      FramesRaw(src, i - 1);
      assert LineFits(FramesAt(src, i - 1), src[i - 1]);
    }
  }

  lemma {:induction false} EntriesHold(env: Env, fs: seq<Frame>, arch: string, defined: set<string>)
    requires RawFrames(fs)
    ensures AllEntriesTrue(env, EntriesOf(fs, arch, defined)) == AllHold(env, fs, arch, defined)
    ensures forall k ::
            0 <= k < |fs| ==> EntriesOf(fs, arch, defined)[k].Keep? ==> Plain(EntriesOf(fs, arch, defined)[k].cond)
  {
    var es := EntriesOf(fs, arch, defined);
    forall k | 0 <= k < |fs|
      ensures EntryTrue(env, es[k]) == Holds(env, fs[k], arch, defined) && (es[k].Keep? ==> Plain(es[k].cond))
    {
      CompiledHolds(env, fs[k], arch, defined);
    }
  }

  lemma {:induction false} StepVerdict(env: Env, fs: seq<Frame>, l: Line, arch: string, defined: set<string>)
    requires LineFits(fs, l) && Conditional(l) && RawFrames(fs)
    ensures Fits(|fs|, Lower(l))
    ensures var r := Step(StackOf(fs, arch, defined), Lower(l), arch, defined);
            r.Next? && if r.verdict.None? then !AllHold(env, fs, arch, defined)
                       else r.verdict.value.keyword == Lower(l).keyword && r.verdict.value.name == Lower(l).name
                            && ChainValue(env, r.verdict.value.cond) ==
                                Some(AllHold(env, fs, arch, defined) && AllTrue(env, DepsOf(l)))
  {
    var deps := DepsOf(l);
    var tail := if deps == [] then [] else [Groups(deps)];
    var es := EntriesOf(fs, arch, defined);
    StepConditional(fs, l, arch, defined, StackOf(fs, arch, defined), tail);
    EntriesHold(env, fs, arch, defined);
    ChainOfEntries(env, es, deps, tail, Lower(l));
  }

  /** What fix_conditionals decides about line i of a script. */
  ghost function Verdict(src: seq<Line>, i: nat, arch: string): Option<Stmt>
    requires i < |src|
  {
    VerdictAt(Stepper(arch, DefinedBy(LowerAll(src))), LowerAll(src), i)
  }

  lemma {:induction false} VerdictIs(step: StepFunction, src: seq<Line>, i: nat, arch: string, defined: set<string>)
    requires i < |src| && WellFormed(src) && Steps(step, arch, defined)
    ensures Fits(|FramesAt(src, i)|, Lower(src[i]))
    ensures var t := Step(StackOf(FramesAt(src, i), arch, defined), Lower(src[i]), arch, defined);
            t.Next? && VerdictAt(step, LowerAll(src), i) == t.verdict
  {
    Tracks(step, src, i, arch, defined);
    StepTracks(FramesAt(src, i), src[i], arch, defined);
    var stack := StackOf(FramesAt(src, i), arch, defined);
    NextStack(step, LowerAll(src), i, stack, step(stack, Lower(src[i])));
  }

  /** fix_conditionals accepts a well-formed script: the demands on the nesting hold and no error exit is taken. */
  lemma {:induction false} NeverGivesUp(src: seq<Line>, arch: string)
    requires WellFormed(src)
    ensures WellNested(LowerAll(src)) && StackAt(Stepper(arch, DefinedBy(LowerAll(src))), LowerAll(src), |src|).Some?
  {
    Nested(src);
    Tracks(Stepper(arch, DefinedBy(LowerAll(src))), src, |src|, arch, DefinedBy(LowerAll(src)));
  }

  /**
   * What every well-formed script compiles to, mixed conditions and undefined variables included: the chain of a
   * statement is true exactly when all enclosing conditions hold as compiled and its own dependencies hold; a statement
   * is dropped only if they never all hold.
   */
  lemma {:induction false} CompilationExact(src: seq<Line>, i: nat, arch: string, env: Env)
    requires WellFormed(src) && i < |src| && Conditional(src[i])
    ensures var v := Verdict(src, i, arch);
            var holds := AllHold(env, FramesAt(src, i), arch, DefinedBy(LowerAll(src)));
            if v.None? then !holds
            else v.value.keyword == Lower(src[i]).keyword && v.value.name == Lower(src[i]).name
                 && ChainValue(env, v.value.cond) == Some(holds && AllTrue(env, DepsOf(src[i])))
  {
    var defined := DefinedBy(LowerAll(src));
    FramesRaw(src, i);
    assert LineFits(FramesAt(src, i), src[i]);
    StepVerdict(env, FramesAt(src, i), src[i], arch, defined);
    VerdictIs(Stepper(arch, defined), src, i, arch, defined);
  }

  /** It keeps the meaning it has in the script: enclosing branches and dependencies, or it is never reached. */
  ghost predicate Preserved(env: Env, src: seq<Line>, i: nat, arch: string)
    requires i < |src|
  {
    var v := Verdict(src, i, arch);
    if v.None? then !Enclosed(env, FramesAt(src, i))
    else v.value.keyword == Lower(src[i]).keyword && v.value.name == Lower(src[i]).name
         && ChainValue(env, v.value.cond) == Some(Enclosed(env, FramesAt(src, i)) && AllTrue(env, DepsOf(src[i])))
  }

  ghost predicate FrameSafe(f: Frame, arch: string, defined: set<string>) {
    && Raw(f.cond) && ElimSafe(f.cond, arch, defined)
    && (f.inElse ==> var e := Elim(f.cond, arch, defined); e.Keep? ==> !Mixed(e.cond))
  }

  lemma {:induction false} FramesSafe(src: seq<Line>, i: nat, arch: string, defined: set<string>)
    requires WellFormed(src) && SafeScript(src, arch, defined) && i <= |src|
    ensures forall k :: 0 <= k < |FramesAt(src, i)| ==> FrameSafe(FramesAt(src, i)[k], arch, defined)
  {
    if i > 0 {
      FramesSafe(src, i - 1, arch, defined);
      assert LineFits(FramesAt(src, i - 1), src[i - 1]);
      assert LineSafe(FramesAt(src, i - 1), src[i - 1], arch, defined);
    }
  }

  /**
   * Compilation preserves meaning. Under every assignment the script can meet, the chain attached to a statement is
   * true exactly when all enclosing branches are taken and its own dependencies hold; a statement is dropped only if
   * the enclosing branches are never all taken.
   */
  lemma {:induction false} CompilationPreserves(src: seq<Line>, i: nat, arch: string, env: Env)
    requires WellFormed(src) && i < |src| && Conditional(src[i])
    requires SafeScript(src, arch, DefinedBy(LowerAll(src))) && Legal(env, arch, DefinedBy(LowerAll(src)))
    ensures Preserved(env, src, i, arch)
  {
    var fs := FramesAt(src, i);
    var defined := DefinedBy(LowerAll(src));
    FramesSafe(src, i, arch, defined);
    forall k | 0 <= k < |fs| ensures Holds(env, fs[k], arch, defined) == (Truth(env, fs[k].cond) != fs[k].inElse) {
      CompiledTruth(env, fs[k], arch, defined);
    }
    CompilationExact(src, i, arch, env);
  }

  lemma {:induction false} UnmixedFrames(src: seq<Line>, i: nat)
    requires i <= |src| && forall i :: 0 <= i < |src| && src[i].IfLine? ==> !Mixed(src[i].cond)
    ensures forall k :: 0 <= k < |FramesAt(src, i)| ==> !Mixed(FramesAt(src, i)[k].cond)
  {
    if i > 0 { UnmixedFrames(src, i - 1); }
  }

  /** Scripts none of whose conditions mixes -a with -o are safe, whatever the architecture and the definitions. */
  lemma {:induction false} UnmixedIsSafe(src: seq<Line>, arch: string, defined: set<string>)
    requires WellFormed(src) && forall i :: 0 <= i < |src| && src[i].IfLine? ==> !Mixed(src[i].cond)
    ensures SafeScript(src, arch, defined)
  {
    forall i | 0 <= i < |src| ensures LineSafe(FramesAt(src, i), src[i], arch, defined) {
      if src[i].IfLine? { PureIsSafe(src[i].cond, arch, defined); }
      if src[i].ElseLine? {
        UnmixedFrames(src, i);
        var fs := FramesAt(src, i);
        if |fs| > 0 { ElimKeeps(fs[|fs| - 1].cond, arch, defined); }
      }
    }
  }

  // ---------------------------------------------------------------- where mixing goes wrong

  /** No condition is decided wrongly by elimination; elses of mixed conditions are allowed. */
  ghost predicate IfsSafe(fs: seq<Frame>, arch: string, defined: set<string>) {
    forall k :: 0 <= k < |fs| ==> ElimSafe(fs[k].cond, arch, defined)
  }

  /**
   * With mixed elses allowed, a statement whose branches are taken and whose dependencies hold keeps a true chain. The
   * chain is right exactly when a dependency or an enclosing condition as compiled fails, or no enclosing else belongs
   * to a condition that is true.
   */
  lemma {:induction false} ElseExact(src: seq<Line>, i: nat, arch: string, env: Env)
    requires WellFormed(src) && i < |src| && Conditional(src[i])
    requires Legal(env, arch, DefinedBy(LowerAll(src))) && IfsSafe(FramesAt(src, i), arch, DefinedBy(LowerAll(src)))
    ensures var fs, v := FramesAt(src, i), Verdict(src, i, arch);
            && (Enclosed(env, fs) && AllTrue(env, DepsOf(src[i])) ==>
                  v.Some? && ChainValue(env, v.value.cond) == Some(true))
            && (Preserved(env, src, i, arch) <==>
                  || !AllTrue(env, DepsOf(src[i])) || !AllHold(env, fs, arch, DefinedBy(LowerAll(src)))
                  || forall k :: 0 <= k < |fs| ==> fs[k].inElse ==> !Truth(env, fs[k].cond))
  {
    var fs := FramesAt(src, i);
    var defined := DefinedBy(LowerAll(src));
    FramesRaw(src, i);
    CompilationExact(src, i, arch, env);
    forall k | 0 <= k < |fs|
      ensures Truth(env, fs[k].cond) != fs[k].inElse ==> Holds(env, fs[k], arch, defined)
      ensures Holds(env, fs[k], arch, defined) && !fs[k].inElse ==> Truth(env, fs[k].cond)
    {
      HoldsExact(env, fs[k], arch, defined);
    }
  }

  /** if c; else; a bool statement; fi */
  function ElseScript(c: Cond): seq<Line> { [IfLine(c), ElseLine, PlainLine(KBool, "D"), FiLine] }

  lemma {:induction false} FramesNext(src: seq<Line>, i: nat, fs: seq<Frame>)
    requires i < |src| && FramesAt(src, i) == fs
    ensures FramesAt(src, i + 1) == FramesAfter(fs, src[i])
  {
  }

  lemma {:induction false} OneFrame(l: Line, f: Frame)
    ensures l == IfLine(f.cond) && !f.inElse ==> FramesAfter([], l) == [f]
    ensures l.ElseLine? ==> FramesAfter([f], l) == [f.(inElse := true)]
    ensures l.PlainLine? ==> FramesAfter([f], l) == [f]
  {
  }

  lemma {:induction false} ElseFramesAt(src: seq<Line>, c: Cond, k: nat)
    requires k + 2 < |src| && FramesAt(src, k) == []
    requires src[k] == IfLine(c) && src[k + 1].ElseLine? && src[k + 2].PlainLine?
    ensures FramesAt(src, k + 1) == [Frame(c, false)] && FramesAt(src, k + 2) == [Frame(c, true)]
    ensures FramesAt(src, k + 3) == [Frame(c, true)]
  {
    var f := Frame(c, false);
    var g := Frame(c, true);
    OneFrame(src[k], f);
    FramesNext(src, k, []);
    OneFrame(src[k + 1], f);
    FramesNext(src, k + 1, [f]);
    OneFrame(src[k + 2], g);
    FramesNext(src, k + 2, [g]);
  }

  lemma {:induction false} ElseFrames(src: seq<Line>, c: Cond, n: nat)
    requires Raw(c) && src == ElseScript(c) && n == 2
    ensures FramesAt(src, n) == [Frame(c, true)] && WellFormed(src)
  {
    ElseFramesAt(src, c, n - 2);
    assert LineFits(FramesAt(src, n - 2), src[0]);
    assert LineFits([Frame(c, false)], src[1]);
    assert LineFits([Frame(c, true)], src[2]);
    assert LineFits([Frame(c, true)], src[3]);
  }

  /** A statement that one else encloses. */
  ghost predicate InElse(src: seq<Line>, i: nat, c: Cond) {
    WellFormed(src) && i < |src| && Conditional(src[i]) && DepsOf(src[i]) == [] && FramesAt(src, i) == [Frame(c, true)]
  }

  lemma {:induction false} OneElse(src: seq<Line>, i: nat, c: Cond, arch: string, env: Env)
    requires InElse(src, i, c) && Elim(c, arch, DefinedBy(LowerAll(src))) == Keep(c)
    ensures Preserved(env, src, i, arch) <==> RunFails(env, c) == !Truth(env, c)
    ensures Enclosed(env, FramesAt(src, i)) == !Truth(env, c)
    ensures RunFails(env, c) ==>
              var v := Verdict(src, i, arch); v.Some? && ChainValue(env, v.value.cond) == Some(true)
  {
    CompilationExact(src, i, arch, env);
    assert FramesAt(src, i)[0] == Frame(c, true);
    assert AllHold(env, FramesAt(src, i), arch, DefinedBy(LowerAll(src))) == RunFails(env, c);
    TrueOrRunFails(env, c);
  }

  /** The else of a condition on independent variables keeps its meaning exactly when the condition is not mixed. */
  lemma {:induction false} ElseSound(src: seq<Line>, i: nat, c: Cond, arch: string)
    requires InElse(src, i, c) && Raw(c) && Independent(c, DefinedBy(LowerAll(src)))
    ensures (forall env: Env {:trigger Legal(env, arch, DefinedBy(LowerAll(src)))} ::
               Legal(env, arch, DefinedBy(LowerAll(src))) ==> Preserved(env, src, i, arch)) <==> !Mixed(c)
  {
    var defined := DefinedBy(LowerAll(src));
    if Mixed(c) {
      var env := BothTaken(c, arch, defined);
      OneElse(src, i, c, arch, env);
    } else {
      IndependentPlain(c, defined);
      forall env: Env | Legal(env, arch, defined) ensures Preserved(env, src, i, arch) {
        InvertTruth(env, c);
        InvertMeans(env, c);
        OneElse(src, i, c, arch, env);
      }
    }
  }

  /** The only variable the script defines is its own. */
  lemma {:induction false} OnlyD(c: Cond, env: Env, arch: string)
    requires Legal(env, arch, DefinedBy(LowerAll(ElseScript(c))))
    ensures env("A") == "" && env("B") == "" && env("C") == ""
  {
    var defined := DefinedBy(LowerAll(ElseScript(c)));
    forall n | n in defined ensures n == "D" { }
    assert "A" != "D" && "B" != "D" && "C" != "D" && "A" != "ARCH" && "B" != "ARCH" && "C" != "ARCH";
  }

  /**
   * Such an else exists: for [ "$A" != "" -a "$B" = "" -o "$C" = "" ] and every assignment the script can meet, the
   * chain of the statement in the else branch holds although the branch is not taken.
   */
  lemma {:induction false} MixedElseFails(arch: string, env: Env)
    ensures var c := More(Atom(false, Var("A"), false, Text("")), AndC,
                          More(Atom(false, Var("B"), true, Text("")), OrC,
                              Last(Atom(false, Var("C"), true, Text("")))));
            WellFormed(ElseScript(c)) && (Legal(env, arch, DefinedBy(LowerAll(ElseScript(c)))) ==>
              var v := Verdict(ElseScript(c), 2, arch);
              !Enclosed(env, FramesAt(ElseScript(c), 2)) && v.Some? && ChainValue(env, v.value.cond) == Some(true))
  {
    var a, b, d := Atom(false, Var("A"), false, Text("")), Atom(false, Var("B"), true, Text("")),
        Atom(false, Var("C"), true, Text(""));
    var r := More(b, OrC, Last(d));
    var c := More(a, AndC, r);
    assert Raw(Last(d)) && Raw(r) && HasOr(r);
    ElseFrames(ElseScript(c), c, 2);
    if Legal(env, arch, DefinedBy(LowerAll(ElseScript(c)))) {
      OnlyD(c, env, arch);
      assert AllAre(env, Last(d), true) && AllAre(env, r, true);
      MixedBoth(env, c);
      OneElse(ElseScript(c), 2, c, arch, env);
    }
  }

  lemma {:induction false} UndefinedStatement(src: seq<Line>, c: Cond, arch: string, env: Env, a: Atom, b: Atom,
                                              d: Atom)
    requires src == [IfLine(c), PlainLine(KBool, "C"), FiLine] && c == More(a, AndC, More(b, OrC, Last(d)))
    requires AgainstText(a) && a.lhs.name == "A" && a.equal && a.rhs.text == "y" && AtomTrue(env, d)
    ensures var v := Verdict(src, 1, arch);
            && WellFormed(src) && Enclosed(env, FramesAt(src, 1))
            && (v.Some? ==> ChainValue(env, v.value.cond) == Some(false))
  {
    var defined := DefinedBy(LowerAll(src));
    var k := 0;
    assert "A" !in defined by {
      forall n | n in defined ensures n == "C" { }
      assert "A" != "C";
    }
    assert "A" != "ARCH";
    UndefinedDecides(env, a, b, d, arch, defined);
    assert FramesAt(src, k) == [];
    OneFrame(src[k], Frame(c, false));
    FramesNext(src, k, []);
    OneFrame(src[k + 1], Frame(c, false));
    FramesNext(src, k + 1, [Frame(c, false)]);
    assert LineFits([], src[0]);
    assert LineFits([Frame(c, false)], src[1]);
    assert LineFits([Frame(c, false)], src[2]);
    CompilationExact(src, 1, arch, env);
    assert !Holds(env, FramesAt(src, 1)[0], arch, defined);
  }

  /**
   * Nor is elimination always safe: in [ "$A" = "y" -a "$B" = "y" -o "$C" = "y" ] around a statement that defines C,
   * the undefined A decides, and where C is y the branch is taken although the statement's chain is not true.
   */
  lemma {:induction false} UndefinedFails(arch: string, env: Env)
    requires env("C") == "y"
    ensures var c := More(Atom(false, Var("A"), true, Text("y")), AndC,
                          More(Atom(false, Var("B"), true, Text("y")), OrC,
                              Last(Atom(false, Var("C"), true, Text("y")))));
            var src := [IfLine(c), PlainLine(KBool, "C"), FiLine];
            var v := Verdict(src, 1, arch);
            && WellFormed(src) && Enclosed(env, FramesAt(src, 1))
            && (v.Some? ==> ChainValue(env, v.value.cond) == Some(false))
  {
    var a, b, d := Atom(false, Var("A"), true, Text("y")), Atom(false, Var("B"), true, Text("y")),
        Atom(false, Var("C"), true, Text("y"));
    var c := More(a, AndC, More(b, OrC, Last(d)));
    UndefinedStatement([IfLine(c), PlainLine(KBool, "C"), FiLine], c, arch, env, a, b, d);
  }
}
