// tkcond.c: nested if/else/fi statements become one chain of tokens for each simple statement.
module TkCond {
  import opened Lists
  import opened Conditions

  // ---------------------------------------------------------------- remove_bang

  function Flip(t: Token): Token {
    if t == Eq then Neq else if t == Neq then Eq else t
  }

  predicate Compares(t: Token) { t == Eq || t == Neq }

  /** A `!` two tokens before a comparison operator goes away and the operator flips. */
  function BangFree(ts: seq<Token>): (r: seq<Token>)
    ensures |ts| > 0 ==> |r| > 0
  {
    if |ts| == 0 then []
    else if ts[0] == Bang && |ts| >= 3 && Compares(ts[2]) then [ts[1], Flip(ts[2])] + BangFree(ts[3..])
    else [ts[0]] + BangFree(ts[1..])
  }

  predicate BangAt(ts: seq<Token>, i: nat) { i + 2 < |ts| && ts[i] == Bang && Compares(ts[i + 2]) }

  lemma {:induction false} BangFreeFrom(ts: seq<Token>, i: nat)
    requires i < |ts|
    ensures BangAt(ts, i) ==> BangFree(ts[i..]) == [ts[i + 1], Flip(ts[i + 2])] + BangFree(ts[i + 3..])
    ensures !BangAt(ts, i) ==> BangFree(ts[i..]) == [ts[i]] + BangFree(ts[i + 1..])
  {
    var left := ts[i..];
    assert left[0] == ts[i] && left[1..] == ts[i + 1..];
    if i + 2 < |ts| { assert left[1] == ts[i + 1] && left[2] == ts[i + 2] && left[3..] == ts[i + 3..]; }
  }

  /** One round of the loop, on what is done and what is left. */
  lemma {:induction false} BangStep(r: seq<Token>, ts: seq<Token>, i: nat, all: seq<Token>)
    requires i < |ts| && r + BangFree(ts[i..]) == all
    ensures BangAt(ts, i) ==> (r + [ts[i + 1], Flip(ts[i + 2])]) + BangFree(ts[i + 3..]) == all
    ensures !BangAt(ts, i) ==> (r + [ts[i]]) + BangFree(ts[i + 1..]) == all
  {
    BangFreeFrom(ts, i);
    if BangAt(ts, i) {
      assert (r + [ts[i + 1], Flip(ts[i + 2])]) + BangFree(ts[i + 3..]) == r + BangFree(ts[i..]);
    } else {
      assert (r + [ts[i]]) + BangFree(ts[i + 1..]) == r + BangFree(ts[i..]);
    }
  }

  method RemoveBang(ts: seq<Token>) returns (r: seq<Token>)
    ensures r == BangFree(ts)
  {
    r := [];
    var i := 0;
    ghost var all := BangFree(ts);
    assert ts[0..] == ts;
    while i < |ts|
      invariant i <= |ts| && r + BangFree(ts[i..]) == all
      decreases |ts| - i
    {
      BangStep(r, ts, i, all);
      if i + 2 < |ts| && ts[i] == Bang && Compares(ts[i + 2]) {
        r := r + [ts[i + 1], Flip(ts[i + 2])];
        i := i + 3;
      } else {
        r := r + [ts[i]];
        i := i + 1;
      }
    }
    assert ts[i..] == [] && r + [] == r;
  }

  // ---------------------------------------------------------------- eliminate_other_arch

  /** A chain, or the error exit. */
  datatype Outcome = Exit | Chain(ts: seq<Token>)

  datatype Scan = FoundOr | Unbalanced | NoOr

  /** Looks for an `-o` outside parentheses. */
  function ScanOr(ts: seq<Token>, depth: int): Scan {
    if |ts| == 0 then NoOr
    else if ts[0] == LParen then ScanOr(ts[1..], depth + 1)
    else if ts[0] == RParen then ScanOr(ts[1..], depth - 1)
    else if ts[0] == Or && depth == 0 then FoundOr
    else if depth < 0 then Unbalanced
    else ScanOr(ts[1..], depth)
  }

  method FindOr(ts: seq<Token>) returns (s: Scan)
    ensures s == ScanOr(ts, 0)
  {
    var depth, i := 0, 0;
    while i < |ts|
      invariant i <= |ts| && ScanOr(ts, 0) == ScanOr(ts[i..], depth)
    {
      assert ts[i..][1..] == ts[i + 1..];
      if ts[i] == LParen {
        depth := depth + 1;
      } else if ts[i] == RParen {
        depth := depth - 1;
      } else if ts[i] == Or && depth == 0 {
        return FoundOr;
      } else if depth < 0 {
        return Unbalanced;
      }
      i := i + 1;
    }
    return NoOr;
  }

  /** The chain is not empty and does not end in a connective. */
  predicate Closed(ts: seq<Token>) {
    |ts| > 0 && ts[|ts| - 1] != And && ts[|ts| - 1] != Or
  }

  predicate OtherArch(op: Token, text: string, arch: string) {
    (op == Eq && text != arch) || (op == Neq && text == arch)
  }

  predicate ThisArch(op: Token, text: string, arch: string) {
    (op == Neq && text != arch) || (op == Eq && text == arch)
  }

  /** The leading comparisons with ARCH and with variables no statement defines are decided. */
  function Eliminated(ts: seq<Token>, arch: string, defined: set<string>): (r: Outcome)
    requires Closed(ts)
    ensures r.Chain? ==> |r.ts| > 0
  {
    if !(ts[0].Variable? && |ts| >= 3 && ts[2].Constant?) then Chain(ts)
    else if ts[0].name == "ARCH" then
      if |ts| == 3 then
        if OtherArch(ts[1], ts[2].text, arch) then Chain([False])
        else if ThisArch(ts[1], ts[2].text, arch) then Chain([True])
        else Chain(ts)
      else if ts[3] == Or then
        if OtherArch(ts[1], ts[2].text, arch) then Eliminated(ts[4..], arch, defined)
        else if ThisArch(ts[1], ts[2].text, arch) then Chain([True])
        else Chain(ts)
      else if ts[3] == And then
        if OtherArch(ts[1], ts[2].text, arch) then
          match ScanOr(ts[4..], 0)
          case FoundOr => Chain(ts)
          case Unbalanced => Exit
          case NoOr => Chain([False])
        else if ThisArch(ts[1], ts[2].text, arch) then Eliminated(ts[4..], arch, defined)
        else Chain(ts)
      else Chain(ts)
    else if ts[0].name !in defined && ts[1] == Eq && ts[2].text != "" then
      if |ts| == 3 || ts[3] == And then Chain([False])
      else if ts[3] == Or then Eliminated(ts[4..], arch, defined)
      else Chain(ts)
    else Chain(ts)
  }

  method EliminateOtherArch(ts: seq<Token>, arch: string, defined: set<string>) returns (r: Outcome)
    requires Closed(ts)
    ensures r == Eliminated(ts, arch, defined)
  {
    if ts[0].Variable? && ts[0].name == "ARCH" {
      if |ts| < 3 {
        return Chain(ts);
      }
      if ts[2].Constant? && |ts| == 3 {
        if OtherArch(ts[1], ts[2].text, arch) {
          return Chain([False]);
        } else if ThisArch(ts[1], ts[2].text, arch) {
          return Chain([True]);
        }
      } else if ts[2].Constant? && ts[3] == Or {
        if OtherArch(ts[1], ts[2].text, arch) {
          r := EliminateOtherArch(ts[4..], arch, defined);
          return;
        } else if ThisArch(ts[1], ts[2].text, arch) {
          return Chain([True]);
        }
      } else if ts[2].Constant? && ts[3] == And {
        if OtherArch(ts[1], ts[2].text, arch) {
          var s := FindOr(ts[4..]);
          return match s case FoundOr => Chain(ts) case Unbalanced => Exit case NoOr => Chain([False]);
        } else if ThisArch(ts[1], ts[2].text, arch) {
          r := EliminateOtherArch(ts[4..], arch, defined);
          return;
        }
      }
    }
    if ts[0].Variable? && ts[0].name !in defined {
      if |ts| < 3 {
        return Chain(ts);
      }
      if ts[2].Constant? && (|ts| == 3 || ts[3] == And) {
        if ts[1] == Eq && ts[2].text != "" {
          return Chain([False]);
        }
      } else if ts[2].Constant? && ts[3] == Or {
        if ts[1] == Eq && ts[2].text != "" {
          r := EliminateOtherArch(ts[4..], arch, defined);
          return;
        }
      }
    }
    return Chain(ts);
  }

  // ---------------------------------------------------------------- else: the condition on top of the stack is
  // inverted

  function InvertToken(t: Token): Token {
    match t
    case And => Or
    case Or => And1
    case Neq => Eq
    case Eq => Neq
    case True => False
    case False => True
    case _ => t
  }

  function Inverted(ts: seq<Token>): (r: seq<Token>)
    ensures |r| == |ts|
  {
    if |ts| == 0 then [] else [InvertToken(ts[0])] + Inverted(ts[1..])
  }

  method InvertChain(chain: seq<Token>) returns (r: seq<Token>)
    ensures r == Inverted(chain)
  {
    r := chain;
    for i := 0 to |chain|
      invariant |r| == |chain| && r[i..] == chain[i..] && r[..i] + Inverted(chain[i..]) == Inverted(chain)
    {
      assert chain[i..][1..] == chain[i + 1..];
      ghost var before := r;
      r := r[i := InvertToken(r[i])];
      assert before[i] == before[i..][0] == chain[i];
      assert r[..i + 1] == before[..i] + [InvertToken(chain[i])];
      assert r[i + 1..] == before[i + 1..] == before[i..][1..];
    }
  }

  // ---------------------------------------------------------------- join_condition_stack

  ghost predicate NonEmpty(conds: seq<seq<Token>>) { forall i :: 0 <= i < |conds| ==> |conds[i]| > 0 }

  function Wrapped(ts: seq<Token>): seq<Token>
    requires |ts| > 0
  {
    if ts[0] != LParen then [LParen] + ts + [RParen] else ts
  }

  /** The conditions that are not constantly true, in parentheses and with && between them, after `acc`. */
  function JoinFrom(acc: seq<Token>, conds: seq<seq<Token>>): seq<Token>
    requires NonEmpty(conds)
    decreases |conds|
  {
    if |conds| == 0 then acc
    else if conds[0][0] == True then JoinFrom(acc, conds[1..])
    else JoinFrom(acc + (if acc == [] then [] else [And]) + Wrapped(conds[0]), conds[1..])
  }

  // Duplicates: a group ( variable = constant ) at p that occurs again.

  predicate SingleAt(ts: seq<Token>, p: nat) {
    && p + 5 < |ts| && ts[p] == LParen && ts[p + 1].Variable? && Compares(ts[p + 2]) && ts[p + 3].Constant?
    && ts[p + 4] == RParen
  }

  predicate MatchAt(ts: seq<Token>, p: nat, q: nat)
    requires p + 5 < |ts|
  {
    && q + 4 < |ts| && ts[q] == LParen
    && ts[q + 1].Variable? && ts[q + 1] == ts[p + 1] && ts[q + 2] == ts[p + 2]
    && ts[q + 3].Constant? && ts[q + 3] == ts[p + 3] && ts[q + 4] == RParen
    && (ts[p + 5] == And || (q + 5 < |ts| && ts[q + 5] == And))
  }

  /** The group at p and one && go. */
  function Nuke(ts: seq<Token>, p: nat, q: nat): (r: seq<Token>)
    requires p + 5 < |ts| && p + 5 <= q && MatchAt(ts, p, q)
    ensures |r| == |ts|
  {
    var r := ts[..p] + [Nuked, Nuked, Nuked, Nuked, Nuked] + ts[p + 5..];
    if ts[p + 5] == And then r[p + 5 := Nuked] else r[q + 5 := Nuked]
  }

  /** The inner loop, from q on. */
  function SearchFrom(ts: seq<Token>, p: nat, q: nat): (r: seq<Token>)
    requires p + 5 < |ts| && p + 5 <= q
    ensures |r| == |ts|
    decreases |ts| - q
  {
    if q >= |ts| || (ts[q] == LParen && q + 4 >= |ts|) then ts
    else SearchFrom(if MatchAt(ts, p, q) then Nuke(ts, p, q) else ts, p, q + 1)
  }

  /** The outer loop, from p on. */
  function DedupFrom(ts: seq<Token>, p: nat): seq<Token>
    decreases |ts| - p
  {
    if p >= |ts| then ts
    else DedupFrom(if SingleAt(ts, p) then SearchFrom(ts, p, p + 6) else ts, p + 1)
  }

  function Joined(conds: seq<seq<Token>>): seq<Token>
    requires NonEmpty(conds)
  {
    if exists i :: 0 <= i < |conds| && conds[i][0] == False then [False] else DedupFrom(JoinFrom([], conds), 0)
  }

  method SearchDuplicate(chain: seq<Token>, p: nat) returns (r: seq<Token>)
    requires SingleAt(chain, p)
    ensures r == SearchFrom(chain, p, p + 6)
  {
    r := chain;
    var q := p + 6;
    while q < |r|
      invariant p + 5 < |r| == |chain| && p + 6 <= q && SearchFrom(r, p, q) == SearchFrom(chain, p, p + 6)
      decreases |r| - q
    {
      if r[q] == LParen {
        if q + 4 >= |r| {
          break;
        }
        if r[q + 1].Variable? && r[q + 1] == r[p + 1] && r[q + 2] == r[p + 2]
           && r[q + 3].Constant? && r[q + 3] == r[p + 3] && r[q + 4] == RParen {
          if r[p + 5] == And || (q + 5 < |r| && r[q + 5] == And) {
            r := Nuke(r, p, q);
          }
        }
      }
      q := q + 1;
    }
  }

  lemma {:induction false} ShortTail(ts: seq<Token>, p: nat)
    requires p + 5 >= |ts|
    ensures DedupFrom(ts, p) == ts
    decreases |ts| - p
  {
    if p < |ts| { ShortTail(ts, p + 1); }
  }

  method RemoveDuplicates(chain: seq<Token>) returns (r: seq<Token>)
    ensures r == DedupFrom(chain, 0)
  {
    r := chain;
    var p := 0;
    while p < |r|
      invariant DedupFrom(r, p) == DedupFrom(chain, 0)
      decreases |r| - p
    {
      if r[p] == LParen {
        if p + 5 >= |r| {
          ShortTail(r, p);
          break;
        }
        if r[p + 1].Variable? && Compares(r[p + 2]) && r[p + 3].Constant? && r[p + 4] == RParen {
          r := SearchDuplicate(r, p);
        }
      }
      p := p + 1;
    }
  }

  lemma {:induction false} JoinStep(r: seq<Token>, all: seq<seq<Token>>, i: nat)
    requires i < |all| && NonEmpty(all[i..])
    ensures NonEmpty(all[i + 1..]) && |all[i]| > 0
    ensures all[i][0] == True ==> JoinFrom(r, all[i..]) == JoinFrom(r, all[i + 1..])
    ensures all[i][0] != True ==>
              var r' := if r == [] then Wrapped(all[i]) else r + [And] + Wrapped(all[i]);
              JoinFrom(r, all[i..]) == JoinFrom(r', all[i + 1..])
  {
    var rest := all[i..];
    assert rest[0] == all[i] && rest[1..] == all[i + 1..];
    assert r == [] ==> r + [] + Wrapped(all[i]) == Wrapped(all[i]);
  }

  method JoinConditionStack(conds: array<seq<Token>>, depth: nat) returns (r: seq<Token>)
    requires depth <= conds.Length && NonEmpty(conds[..depth])
    ensures r == Joined(conds[..depth])
  {
    ghost var all := conds[..depth];
    for i := 0 to depth
      invariant forall k :: 0 <= k < i ==> all[k][0] != False
    {
      assert all[i] == conds[i];
      if conds[i][0] == False {
        return [False];
      }
    }
    r := [];
    for i := 0 to depth
      invariant NonEmpty(all[i..]) && JoinFrom(r, all[i..]) == JoinFrom([], all)
    {
      JoinStep(r, all, i);
      assert all[i] == conds[i];
      if conds[i][0] == True {
        continue;
      }
      if r != [] {
        r := r + [And];
      }
      if conds[i][0] != LParen {
        r := r + ([LParen] + conds[i] + [RParen]);
      } else {
        r := r + conds[i];
      }
    }
    r := RemoveDuplicates(r);
  }

  // ---------------------------------------------------------------- statements

  /** enum e_token */
  datatype Keyword =
    | KUnknown | KBool | KChoiceHeader | KChoiceItem | KComment | KDefineBool | KDefineHex | KDefineInt | KDefineString
    | KDefineTristate | KDepBool | KDepMbool | KDepTristate | KElse | KEndmenu | KFi | KHex | KIf | KInt | KMainmenuName
    | KMainmenuOption | KSource | KString | KThen | KTristate | KUnset

  /** A statement; an empty chain stands for none, an empty name for no variable. */
  datatype Stmt = Stmt(keyword: Keyword, name: string, cond: seq<Token>)

  /** mark_variables: the keywords that define the variable they name. */
  predicate Defines(k: Keyword) {
    match k
    case KBool | KChoiceItem | KDefineBool | KDefineHex | KDefineInt | KDefineString | KDefineTristate | KDepBool
       | KDepMbool | KDepTristate | KHex | KInt | KString | KTristate | KUnset => true
    case _ => false
  }

  /** Statements that take the enclosing conditions. */
  predicate Simple(k: Keyword) {
    match k
    case KBool | KChoiceItem | KChoiceHeader | KComment | KDefineBool | KDefineHex | KDefineInt | KDefineString
       | KDefineTristate | KEndmenu | KHex | KInt | KMainmenuOption | KString | KTristate | KUnset => true
    case _ => false
  }

  /** Statements that have a condition of their own besides. */
  predicate Dependent(k: Keyword) { k == KDepBool || k == KDepMbool || k == KDepTristate }

  function DefinedBy(stmts: seq<Stmt>): set<string> {
    set i | 0 <= i < |stmts| && Defines(stmts[i].keyword) && stmts[i].name != "" :: stmts[i].name
  }

  method MarkVariables(stmts: seq<Stmt>) returns (defined: set<string>)
    ensures defined == DefinedBy(stmts)
  {
    defined := {};
    for i := 0 to |stmts|
      invariant defined == DefinedBy(stmts[..i])
    {
      assert stmts[..i + 1] == stmts[..i] + [stmts[i]];
      if Defines(stmts[i].keyword) && stmts[i].name != "" {
        defined := defined + {stmts[i].name};
      }
    }
    assert stmts[..|stmts|] == stmts;
  }

  type Stack = seq<seq<Token>>

  /** What one statement asks of the stack. */
  predicate Fits(depth: nat, s: Stmt) {
    if s.keyword == KIf then depth < 32 && Closed(s.cond)
    else if s.keyword == KElse || s.keyword == KFi then depth > 0
    else Dependent(s.keyword) && s.cond != [] ==> depth < 32 && Closed(s.cond)
  }

  datatype StepResult = Aborted | Next(stack: Stack, verdict: Option<Stmt>)

  /** A statement with its chain, or nothing when the chain is constantly false. */
  function Kept(s: Stmt, chain: seq<Token>): Option<Stmt> {
    if chain != [] && chain[0] == False then None else Some(s.(cond := chain))
  }

  function DepthAfter(depth: nat, s: Stmt): nat {
    if s.keyword == KIf then depth + 1 else if s.keyword == KFi && depth > 0 then depth - 1 else depth
  }

  function Step(stack: Stack, s: Stmt, arch: string, defined: set<string>): (r: StepResult)
    requires NonEmpty(stack) && Fits(|stack|, s)
    ensures r.Next? ==> NonEmpty(r.stack) && |r.stack| == DepthAfter(|stack|, s)
  {
    if s.keyword == KIf then
      var c := Eliminated(s.cond, arch, defined);
      if c.Exit? then Aborted else Next(stack + [BangFree(c.ts)], Some(s.(cond := [])))
    else if s.keyword == KElse then Next(stack[..|stack| - 1] + [Inverted(stack[|stack| - 1])], Some(s))
    else if s.keyword == KFi then Next(stack[..|stack| - 1], Some(s))
    else if Dependent(s.keyword) && s.cond != [] then
      var c := Eliminated(s.cond, arch, defined);
      if c.Exit? then Aborted else Next(stack, Kept(s, Joined(stack + [c.ts])))
    else if Simple(s.keyword) || Dependent(s.keyword) then Next(stack, Kept(s, Joined(stack)))
    else Next(stack, Some(s))
  }

  function DepthAt(stmts: seq<Stmt>, n: nat): nat
    requires n <= |stmts|
  {
    if n == 0 then 0 else DepthAfter(DepthAt(stmts, n - 1), stmts[n - 1])
  }

  /** Every else and fi has its if, no more than 32 ifs are open, and every if has a condition. */
  ghost predicate WellNested(stmts: seq<Stmt>) {
    forall i {:trigger Fits(DepthAt(stmts, i), stmts[i])} :: 0 <= i < |stmts| ==> Fits(DepthAt(stmts, i), stmts[i])
  }

  type StepFunction = (Stack, Stmt) -> StepResult

  /** Step, for stacks and statements that fit. */
  ghost function Stepper(arch: string, defined: set<string>): StepFunction {
    (stack, s) => if NonEmpty(stack) && Fits(|stack|, s) then Step(stack, s, arch, defined) else Aborted
  }

  ghost predicate Steps(step: StepFunction, arch: string, defined: set<string>) {
    forall stack, s {:trigger Step(stack, s, arch, defined)} ::
      NonEmpty(stack) && Fits(|stack|, s) ==> Step(stack, s, arch, defined) == step(stack, s)
  }

  /** The stack after the first n statements, unless the run was given up. */
  ghost function StackAt(step: StepFunction, stmts: seq<Stmt>, n: nat): Option<Stack>
    requires n <= |stmts|
  {
    if n == 0 then Some([])
    else
      var r := StackAt(step, stmts, n - 1);
      if r.None? then None
      else
        var t := step(r.value, stmts[n - 1]);
        if t.Aborted? then None else Some(t.stack)
  }

  /** What becomes of statement i: the statement with its chain, or nothing if it is dropped. */
  ghost function VerdictAt(step: StepFunction, stmts: seq<Stmt>, i: nat): Option<Stmt>
    requires i < |stmts|
  {
    var r := StackAt(step, stmts, i);
    if r.None? then None
    else
      var t := step(r.value, stmts[i]);
      if t.Aborted? then None else t.verdict
  }

  /** The first n statements, those that stay in the list. */
  ghost function Remaining(step: StepFunction, stmts: seq<Stmt>, n: nat): seq<Stmt>
    requires n <= |stmts|
  {
    if n == 0 then []
    else
      var v := VerdictAt(step, stmts, n - 1);
      Remaining(step, stmts, n - 1) + (if v.Some? then [v.value] else [])
  }

  /** token_if: push the condition. */
  method PushCondition(stack: array<seq<Token>>, depth: nat, cond: seq<Token>, arch: string, defined: set<string>)
      returns (ok: bool)
    requires depth < stack.Length && Closed(cond)
    modifies stack
    ensures ok == Eliminated(cond, arch, defined).Chain?
    ensures ok ==> stack[..depth + 1] == old(stack[..depth]) + [BangFree(Eliminated(cond, arch, defined).ts)]
  {
    var c := EliminateOtherArch(cond, arch, defined);
    if c.Exit? {
      return false;
    }
    var chain := RemoveBang(c.ts);
    stack[depth] := chain;
    return true;
  }

  /** token_else: invert the condition on top. */
  method InvertTop(stack: array<seq<Token>>, depth: nat)
    requires 0 < depth <= stack.Length
    modifies stack
    ensures stack[..depth] == old(stack[..depth - 1]) + [Inverted(old(stack[depth - 1]))]
  {
    var chain := InvertChain(stack[depth - 1]);
    stack[depth - 1] := chain;
  }

  /** The condition chain of a simple statement. */
  method ChainFor(stack: array<seq<Token>>, depth: nat, s: Stmt, arch: string, defined: set<string>)
      returns (ok: bool, verdict: Option<Stmt>)
    requires depth <= stack.Length == 32 && NonEmpty(stack[..depth]) && Fits(depth, s)
    requires Simple(s.keyword) || Dependent(s.keyword)
    modifies stack
    ensures stack[..depth] == old(stack[..depth])
    ensures ok == Step(old(stack[..depth]), s, arch, defined).Next?
    ensures ok ==> Step(old(stack[..depth]), s, arch, defined) == Next(old(stack[..depth]), verdict)
  {
    var n := depth;
    if Dependent(s.keyword) && s.cond != [] {
      var c := EliminateOtherArch(s.cond, arch, defined);
      if c.Exit? {
        return false, None;
      }
      stack[depth] := c.ts;
      n := depth + 1;
      assert stack[..n] == old(stack[..depth]) + [c.ts];
    }
    var chain := JoinConditionStack(stack, n);
    return true, Kept(s, chain);
  }

  /** The switch of fix_conditionals. */
  method DoStatement(stack: array<seq<Token>>, depth: nat, s: Stmt, arch: string, defined: set<string>,
                     ghost step: StepFunction) returns (ok: bool, depth': nat, verdict: Option<Stmt>)
    requires depth <= stack.Length == 32 && NonEmpty(stack[..depth]) && Fits(depth, s) && Steps(step, arch, defined)
    modifies stack
    ensures ok == step(old(stack[..depth]), s).Next?
    ensures ok ==> depth' == DepthAfter(depth, s) <= 32 && NonEmpty(stack[..depth'])
    ensures ok ==> step(old(stack[..depth]), s) == Next(stack[..depth'], verdict)
  {
    ghost var t := Step(stack[..depth], s, arch, defined);
    ok, depth', verdict := true, depth, Some(s);
    if s.keyword == KIf {
      ok := PushCondition(stack, depth, s.cond, arch, defined);
      depth', verdict := depth + 1, Some(s.(cond := []));
    } else if s.keyword == KElse {
      InvertTop(stack, depth);
    } else if s.keyword == KFi {
      depth' := depth - 1;
      assert stack[..depth'] == stack[..depth][..depth'];
    } else if Simple(s.keyword) || Dependent(s.keyword) {
      ok, verdict := ChainFor(stack, depth, s, arch, defined);
    }
  }

  lemma {:induction false} NextStack(step: StepFunction, stmts: seq<Stmt>, n: nat, stack: Stack, t: StepResult)
    requires n < |stmts| && StackAt(step, stmts, n) == Some(stack) && t == step(stack, stmts[n])
    ensures t.Aborted? ==> StackAt(step, stmts, n + 1) == None
    ensures t.Next? ==> StackAt(step, stmts, n + 1) == Some(t.stack) && VerdictAt(step, stmts, n) == t.verdict
    ensures t.Next? && t.verdict.None? ==> Remaining(step, stmts, n + 1) == Remaining(step, stmts, n)
    ensures t.Next? && t.verdict.Some? ==>
            Remaining(step, stmts, n + 1) == Remaining(step, stmts, n) + [t.verdict.value]
  {
  }

  lemma {:induction false} RunStops(step: StepFunction, stmts: seq<Stmt>, m: nat, n: nat)
    requires m <= n <= |stmts| && StackAt(step, stmts, m).None?
    ensures StackAt(step, stmts, n).None?
  {
    if m < n { RunStops(step, stmts, m, n - 1); }
  }

  /** The loop of fix_conditionals. */
  method WalkStatements(stmts: seq<Stmt>, arch: string, defined: set<string>, ghost step: StepFunction)
      returns (ok: bool, out: seq<Stmt>)
    requires WellNested(stmts) && Steps(step, arch, defined)
    ensures ok == StackAt(step, stmts, |stmts|).Some?
    ensures ok ==> out == Remaining(step, stmts, |stmts|)
  {
    var stack := new seq<Token>[32];
    var depth := 0;
    out := [];
    for i := 0 to |stmts|
      invariant depth <= 32 && depth == DepthAt(stmts, i) && NonEmpty(stack[..depth])
      invariant StackAt(step, stmts, i) == Some(stack[..depth])
      invariant out == Remaining(step, stmts, i)
    {
      var verdict;
      assert Fits(DepthAt(stmts, i), stmts[i]);
      ghost var before := stack[..depth];
      ok, depth, verdict := DoStatement(stack, depth, stmts[i], arch, defined, step);
      NextStack(step, stmts, i, before, step(before, stmts[i]));
      if !ok {
        RunStops(step, stmts, i + 1, |stmts|);
        return false, [];
      }
      if verdict.Some? {
        out := out + [verdict.value];
      }
    }
    return true, out;
  }

  method FixConditionals(stmts: seq<Stmt>, arch: string) returns (ok: bool, out: seq<Stmt>)
    requires WellNested(stmts)
    ensures ok == StackAt(Stepper(arch, DefinedBy(stmts)), stmts, |stmts|).Some?
    ensures ok ==> out == Remaining(Stepper(arch, DefinedBy(stmts)), stmts, |stmts|)
  {
    var defined := MarkVariables(stmts);
    ok, out := WalkStatements(stmts, arch, defined, Stepper(arch, defined));
  }
}
