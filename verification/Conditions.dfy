// The conditions of config scripts: the tokens tkparse.c makes of them, what a condition means in the script (test),
// and what a chain of tokens means in the generated Tk script (expr).
module Conditions {
  import opened Lists

  /** Tokens of a condition chain (enum operator with its string or variable). */
  datatype Token =
    | Eq | Neq | And | And1 | Or | Bang | LParen | RParen
    | Constant(text: string) | Variable(name: string)
    | True | False | Nuked

  // ---------------------------------------------------------------- conditions as written

  datatype Operand = Var(name: string) | Text(text: string)

  /** A comparison, with `=` or `!=`, and whether a `!` stands directly before it. */
  datatype Atom = Atom(bang: bool, lhs: Operand, equal: bool, rhs: Operand)

  /** -a, the && that an inverted -o becomes, and -o. */
  datatype Connective = AndC | And1C | OrC

  datatype Cond = Last(atom: Atom) | More(atom: Atom, conn: Connective, rest: Cond)

  type Env = string -> string

  function ValueOf(env: Env, o: Operand): string {
    match o
    case Var(name) => env(name)
    case Text(text) => text
  }

  predicate AtomTrue(env: Env, a: Atom) {
    ((ValueOf(env, a.lhs) == ValueOf(env, a.rhs)) == a.equal) != a.bang
  }

  /** The comparisons up to the first -o all hold. */
  predicate LeadTrue(env: Env, c: Cond) {
    match c
    case Last(a) => AtomTrue(env, a)
    case More(a, conn, rest) => AtomTrue(env, a) && (conn == OrC || LeadTrue(env, rest))
  }

  /** What follows the first -o is true. */
  predicate LaterTrue(env: Env, c: Cond) {
    match c
    case Last(a) => false
    case More(a, conn, rest) => LaterTrue(env, rest) || (conn == OrC && LeadTrue(env, rest))
  }

  /** The truth of a condition: -a binds tighter than -o. */
  predicate Truth(env: Env, c: Cond) { LeadTrue(env, c) || LaterTrue(env, c) }

  predicate HasOr(c: Cond) { c.More? && (c.conn == OrC || HasOr(c.rest)) }

  predicate HasAnd(c: Cond) { c.More? && (c.conn != OrC || HasAnd(c.rest)) }

  /** The condition mixes -a with -o. */
  predicate Mixed(c: Cond) { HasAnd(c) && HasOr(c) }

  predicate Plain(c: Cond) { !c.atom.bang && (c.More? ==> Plain(c.rest)) }

  // ---------------------------------------------------------------- their tokens

  function OperandToken(o: Operand): Token {
    match o
    case Var(name) => Variable(name)
    case Text(text) => Constant(text)
  }

  function AtomTokens(a: Atom): seq<Token> {
    (if a.bang then [Bang] else []) + [OperandToken(a.lhs), if a.equal then Eq else Neq, OperandToken(a.rhs)]
  }

  function ConnToken(k: Connective): Token {
    match k
    case AndC => And
    case And1C => And1
    case OrC => Or
  }

  function Tokens(c: Cond): (ts: seq<Token>)
    ensures |ts| >= 3
  {
    match c
    case Last(a) => AtomTokens(a)
    case More(a, conn, rest) => AtomTokens(a) + [ConnToken(conn)] + Tokens(rest)
  }

  function Group(g: Cond): seq<Token> { [LParen] + Tokens(g) + [RParen] }

  /** Conditions in parentheses, with && between them. */
  function Groups(gs: seq<Cond>): seq<Token> {
    if |gs| == 0 then []
    else if |gs| == 1 then Group(gs[0])
    else Group(gs[0]) + [And] + Groups(gs[1..])
  }

  // ---------------------------------------------------------------- the meaning of a chain

  datatype Parse = Failed | Parsed(value: bool, rest: seq<Token>)

  function OperandValue(env: Env, t: Token): string
    requires t.Variable? || t.Constant?
  {
    if t.Variable? then env(t.name) else t.text
  }

  /** A comparison or an expression in parentheses. */
  function EvalPrimary(env: Env, ts: seq<Token>): (p: Parse)
    ensures p.Parsed? ==> |p.rest| < |ts|
    decreases |ts|, 0
  {
    if |ts| == 0 then Failed
    else if ts[0] == LParen then
      var p := EvalOr(env, ts[1..]);
      if p.Parsed? && |p.rest| > 0 && p.rest[0] == RParen then Parsed(p.value, p.rest[1..]) else Failed
    else if |ts| >= 3 && (ts[0].Variable? || ts[0].Constant?) && (ts[1] == Eq || ts[1] == Neq)
        && (ts[2].Variable? || ts[2].Constant?) then
      Parsed((OperandValue(env, ts[0]) == OperandValue(env, ts[2])) == (ts[1] == Eq), ts[3..])
    else Failed
  }

  function EvalAnd(env: Env, ts: seq<Token>): (p: Parse)
    ensures p.Parsed? ==> |p.rest| < |ts|
    decreases |ts|, 1
  {
    var p := EvalPrimary(env, ts);
    if p.Parsed? && |p.rest| > 0 && (p.rest[0] == And || p.rest[0] == And1) then
      var q := EvalAnd(env, p.rest[1..]);
      if q.Parsed? then Parsed(p.value && q.value, q.rest) else Failed
    else p
  }

  function EvalOr(env: Env, ts: seq<Token>): (p: Parse)
    ensures p.Parsed? ==> |p.rest| < |ts|
    decreases |ts|, 2
  {
    var p := EvalAnd(env, ts);
    if p.Parsed? && |p.rest| > 0 && p.rest[0] == Or then
      var q := EvalOr(env, p.rest[1..]);
      if q.Parsed? then Parsed(p.value || q.value, q.rest) else Failed
    else p
  }

  /** The tokens the Tk script shows. */
  function Live(ts: seq<Token>): seq<Token> {
    if |ts| == 0 then [] else if ts[0] == Nuked then Live(ts[1..]) else [ts[0]] + Live(ts[1..])
  }

  /** The value of a chain; a statement without a chain is unconditional. */
  function ChainValue(env: Env, ts: seq<Token>): Option<bool> {
    if ts == [] then Some(true)
    else
      var p := EvalOr(env, Live(ts));
      if p.Parsed? && p.rest == [] then Some(p.value) else None
  }

  // ---------------------------------------------------------------- the value of groups

  /** Nothing that would extend an expression follows. */
  predicate Stops(rest: seq<Token>) {
    rest == [] || (rest[0] != And && rest[0] != And1 && rest[0] != Or)
  }

  /** What is left after the comparisons up to the first -o. */
  function AfterLead(c: Cond): seq<Token> {
    match c
    case Last(a) => []
    case More(a, conn, rest) => if conn == OrC then [Or] + Tokens(rest) else AfterLead(rest)
  }

  lemma {:induction false} EvalAtom(env: Env, a: Atom, rest: seq<Token>)
    requires !a.bang
    ensures EvalPrimary(env, AtomTokens(a) + rest) == Parsed(AtomTrue(env, a), rest)
  {
    var ts := AtomTokens(a) + rest;
    assert ts[0] == OperandToken(a.lhs) && ts[2] == OperandToken(a.rhs) && ts[3..] == rest;
  }

  lemma {:induction false} AndStops(env: Env, ts: seq<Token>, p: Parse)
    requires p.Parsed? && EvalPrimary(env, ts) == p && (p.rest == [] || (p.rest[0] != And && p.rest[0] != And1))
    ensures EvalAnd(env, ts) == p
  {
  }

  lemma {:induction false} AndGoesOn(env: Env, ts: seq<Token>, p: Parse, q: Parse)
    requires p.Parsed? && EvalPrimary(env, ts) == p && |p.rest| > 0 && (p.rest[0] == And || p.rest[0] == And1)
    requires q.Parsed? && EvalAnd(env, p.rest[1..]) == q
    ensures EvalAnd(env, ts) == Parsed(p.value && q.value, q.rest)
  {
  }

  lemma {:induction false} OrStops(env: Env, ts: seq<Token>, p: Parse)
    requires p.Parsed? && EvalAnd(env, ts) == p && (p.rest == [] || p.rest[0] != Or)
    ensures EvalOr(env, ts) == p
  {
  }

  lemma {:induction false} OrGoesOn(env: Env, ts: seq<Token>, p: Parse, q: Parse)
    requires p.Parsed? && EvalAnd(env, ts) == p && |p.rest| > 0 && p.rest[0] == Or
    requires q.Parsed? && EvalOr(env, p.rest[1..]) == q
    ensures EvalOr(env, ts) == Parsed(p.value || q.value, q.rest)
  {
  }

  lemma {:induction false} TokensMore(a: Atom, conn: Connective, r: Cond, rest: seq<Token>)
    ensures Tokens(More(a, conn, r)) + rest == AtomTokens(a) + ([ConnToken(conn)] + (Tokens(r) + rest))
  {
  }

  lemma {:induction false} LeadLast(env: Env, a: Atom, rest: seq<Token>)
    requires !a.bang && Stops(rest)
    ensures EvalAnd(env, Tokens(Last(a)) + rest) == Parsed(AtomTrue(env, a), rest)
  {
    EvalAtom(env, a, rest);
    AndStops(env, AtomTokens(a) + rest, Parsed(AtomTrue(env, a), rest));
  }

  lemma {:induction false} LeadOr(env: Env, a: Atom, tail: seq<Token>)
    requires !a.bang && |tail| > 0 && tail[0] == Or
    ensures EvalAnd(env, AtomTokens(a) + tail) == Parsed(AtomTrue(env, a), tail)
  {
    EvalAtom(env, a, tail);
    AndStops(env, AtomTokens(a) + tail, Parsed(AtomTrue(env, a), tail));
  }

  lemma {:induction false} LeadAnd(env: Env, a: Atom, t: Token, more: seq<Token>, q: Parse)
    requires !a.bang && (t == And || t == And1) && q.Parsed? && EvalAnd(env, more) == q
    ensures EvalAnd(env, AtomTokens(a) + ([t] + more)) == Parsed(AtomTrue(env, a) && q.value, q.rest)
  {
    var tail := [t] + more;
    assert tail[1..] == more;
    EvalAtom(env, a, tail);
    AndGoesOn(env, AtomTokens(a) + tail, Parsed(AtomTrue(env, a), tail), q);
  }

  lemma {:induction false} EvalLead(env: Env, c: Cond, rest: seq<Token>)
    requires Plain(c) && Stops(rest)
    ensures EvalAnd(env, Tokens(c) + rest) == Parsed(LeadTrue(env, c), AfterLead(c) + rest)
  {
    match c
    case Last(a) =>
      LeadLast(env, a, rest);
      assert AfterLead(c) + rest == rest;
    case More(a, conn, r) =>
      TokensMore(a, conn, r, rest);
      if conn != OrC {
        EvalLead(env, r, rest);
        LeadAnd(env, a, ConnToken(conn), Tokens(r) + rest, Parsed(LeadTrue(env, r), AfterLead(r) + rest));
      } else {
        LeadOr(env, a, [Or] + (Tokens(r) + rest));
        assert AfterLead(c) + rest == [Or] + (Tokens(r) + rest);
      }
  }

  /** Past the first -o the same condition goes on. */
  lemma {:induction false} AfterLeadIs(env: Env, c: Cond) returns (later: Cond)
    requires Plain(c) && HasOr(c)
    ensures Plain(later) && later < c && AfterLead(c) == [Or] + Tokens(later) && LaterTrue(env, c) == Truth(env, later)
    decreases c
  {
    if c.conn == OrC {
      later := c.rest;
    } else {
      later := AfterLeadIs(env, c.rest);
    }
  }

  lemma {:induction false} NoOrNoLater(env: Env, c: Cond)
    requires !HasOr(c)
    ensures !LaterTrue(env, c) && AfterLead(c) == []
  {
    if c.More? { NoOrNoLater(env, c.rest); }
  }

  lemma {:induction false} OrTail(env: Env, ts: seq<Token>, v: bool, after: seq<Token>, later: Cond, rest: seq<Token>)
    requires after == [Or] + Tokens(later) && EvalAnd(env, ts) == Parsed(v, after + rest)
    requires EvalOr(env, Tokens(later) + rest) == Parsed(Truth(env, later), rest)
    ensures EvalOr(env, ts) == Parsed(v || Truth(env, later), rest)
  {
    assert (after + rest)[0] == Or && (after + rest)[1..] == Tokens(later) + rest;
    OrGoesOn(env, ts, Parsed(v, after + rest), Parsed(Truth(env, later), rest));
  }

  /** A condition's tokens have the condition's truth as their value. */
  lemma {:induction false} EvalTokens(env: Env, c: Cond, rest: seq<Token>)
    requires Plain(c) && Stops(rest)
    ensures EvalOr(env, Tokens(c) + rest) == Parsed(Truth(env, c), rest)
    decreases c
  {
    EvalLead(env, c, rest);
    if HasOr(c) {
      var later := AfterLeadIs(env, c);
      EvalTokens(env, later, rest);
      OrTail(env, Tokens(c) + rest, LeadTrue(env, c), AfterLead(c), later, rest);
    } else {
      NoOrNoLater(env, c);
      assert AfterLead(c) + rest == rest;
      OrStops(env, Tokens(c) + rest, Parsed(LeadTrue(env, c), rest));
    }
  }

  lemma {:induction false} EvalGroup(env: Env, g: Cond, rest: seq<Token>)
    requires Plain(g)
    ensures EvalPrimary(env, Group(g) + rest) == Parsed(Truth(env, g), rest)
  {
    var ts := Group(g) + rest;
    assert ts[1..] == Tokens(g) + ([RParen] + rest);
    EvalTokens(env, g, [RParen] + rest);
    assert ([RParen] + rest)[1..] == rest;
  }

  predicate AllPlain(gs: seq<Cond>) { forall i :: 0 <= i < |gs| ==> Plain(gs[i]) }

  predicate AllTrue(env: Env, gs: seq<Cond>) { forall i :: 0 <= i < |gs| ==> Truth(env, gs[i]) }

  lemma {:induction false} EvalGroups(env: Env, gs: seq<Cond>)
    requires |gs| > 0 && AllPlain(gs)
    ensures EvalAnd(env, Groups(gs)) == Parsed(AllTrue(env, gs), [])
  {
    if |gs| == 1 {
      EvalGroup(env, gs[0], []);
      assert Groups(gs) == Group(gs[0]) + [];
    } else {
      var tail := [And] + Groups(gs[1..]);
      assert Groups(gs) == Group(gs[0]) + tail;
      EvalGroup(env, gs[0], tail);
      assert tail[1..] == Groups(gs[1..]);
      EvalGroups(env, gs[1..]);
      assert AllTrue(env, gs) == (Truth(env, gs[0]) && AllTrue(env, gs[1..])) by {
        if Truth(env, gs[0]) && AllTrue(env, gs[1..]) {
          forall i | 0 <= i < |gs| ensures Truth(env, gs[i]) {
            if i > 0 { assert gs[i] == gs[1..][i - 1]; }
          }
        }
        if AllTrue(env, gs) { assert gs[0] in gs; }
      }
    }
  }

  lemma {:induction false} TokensNotNuked(c: Cond)
    ensures Nuked !in Tokens(c)
  {
    if c.More? { TokensNotNuked(c.rest); }
  }

  lemma {:induction false} NoneNuked(gs: seq<Cond>)
    ensures Nuked !in Groups(gs)
  {
    if |gs| > 0 {
      TokensNotNuked(gs[0]);
      NoneNuked(gs[1..]);
    }
  }

  lemma {:induction false} LiveAll(ts: seq<Token>)
    requires Nuked !in ts
    ensures Live(ts) == ts
  {
    if |ts| > 0 { LiveAll(ts[1..]); }
  }

  lemma {:induction false} LiveGroups(gs: seq<Cond>)
    ensures Live(Groups(gs)) == Groups(gs)
  {
    NoneNuked(gs);
    LiveAll(Groups(gs));
  }

  lemma {:induction false} LiveFirst(t: Token, ts: seq<Token>)
    ensures Live([t] + ts) == if t == Nuked then Live(ts) else [t] + Live(ts)
  {
    assert ([t] + ts)[1..] == ts;
  }

  lemma {:induction false} LiveConcat(a: seq<Token>, b: seq<Token>)
    ensures Live(a + b) == Live(a) + Live(b)
  {
    if |a| == 0 {
      assert a + b == b;
    } else {
      var t, rest := a[0], a[1..];
      assert a == [t] + rest && a + b == [t] + (rest + b);
      LiveFirst(t, rest);
      LiveFirst(t, rest + b);
      LiveConcat(rest, b);
    }
  }

  /** A chain of groups is true exactly when every group is. */
  lemma {:induction false} GroupsValue(env: Env, gs: seq<Cond>)
    requires AllPlain(gs)
    ensures ChainValue(env, Groups(gs)) == Some(AllTrue(env, gs))
  {
    if |gs| > 0 {
      LiveGroups(gs);
      EvalGroups(env, gs);
    }
  }
}
