// What tkcond.c preserves: the chain attached to a statement is true exactly when every enclosing branch is taken.
module TkMeaning {
  import opened Conditions
  import opened TkCond

  // ---------------------------------------------------------------- eliminate_other_arch on conditions

  /** What becomes of a condition: decided, or kept. */
  datatype Entry = Always | Never | Keep(cond: Cond)

  function EntryTokens(e: Entry): seq<Token> {
    match e
    case Always => [True]
    case Never => [False]
    case Keep(c) => Tokens(c)
  }

  predicate EntryTrue(env: Env, e: Entry) {
    match e
    case Always => true
    case Never => false
    case Keep(c) => Truth(env, c)
  }

  /** A condition as read: no inverted -o yet. */
  predicate Raw(c: Cond) { c.More? ==> c.conn != And1C && Raw(c.rest) }

  /** An assignment the script can meet: ARCH is the architecture, and what no statement defines is empty. */
  ghost predicate Legal(env: Env, arch: string, defined: set<string>) {
    env("ARCH") == arch && forall n: string :: n !in defined && n != "ARCH" ==> env(n) == ""
  }

  /** A comparison of a variable with a constant. */
  predicate AgainstText(a: Atom) { !a.bang && a.lhs.Var? && a.rhs.Text? }

  /** The comparison of a variable that no statement defines with a text that is not empty. */
  predicate NeverHolds(a: Atom, defined: set<string>) {
    AgainstText(a) && a.lhs.name != "ARCH" && a.lhs.name !in defined && a.equal && a.rhs.text != ""
  }

  predicate OnArch(a: Atom) { AgainstText(a) && a.lhs.name == "ARCH" }

  /** Eliminated, on conditions. */
  function Elim(c: Cond, arch: string, defined: set<string>): Entry {
    if OnArch(c.atom) then
      var holds := (c.atom.rhs.text == arch) == c.atom.equal;
      match c
      case Last(a) => if holds then Always else Never
      case More(a, conn, rest) =>
        if conn == OrC then if holds then Always else Elim(rest, arch, defined)
        else if holds then Elim(rest, arch, defined)
        else if HasOr(rest) then Keep(c) else Never
    else if NeverHolds(c.atom, defined) then
      if c.More? && c.conn == OrC then Elim(c.rest, arch, defined) else Never
    else Keep(c)
  }

  lemma {:induction false} ScanAtom(a: Atom, tail: seq<Token>)
    ensures ScanOr(AtomTokens(a) + tail, 0) == ScanOr(tail, 0)
  {
    var ts := AtomTokens(a) + tail;
    if a.bang { assert ts[1..] == AtomTokens(a.(bang := false)) + tail; }
    var us := AtomTokens(a.(bang := false)) + tail;
    assert ScanOr(ts, 0) == ScanOr(us, 0);
    assert us[0] == OperandToken(a.lhs) && us[1..][0] == us[1] && us[1..][1..] == us[2..];
    assert us[2..][0] == OperandToken(a.rhs) && us[2..][1..] == tail;
    assert ScanOr(us, 0) == ScanOr(us[1..], 0) == ScanOr(us[2..], 0) == ScanOr(tail, 0);
  }

  /** The tokens of a condition that goes on. */
  lemma {:induction false} TokensMore(c: Cond)
    requires c.More?
    ensures Tokens(c) == AtomTokens(c.atom) + ([ConnToken(c.conn)] + Tokens(c.rest))
  {
    assert AtomTokens(c.atom) + [ConnToken(c.conn)] + Tokens(c.rest)
           == AtomTokens(c.atom) + ([ConnToken(c.conn)] + Tokens(c.rest));
  }

  lemma {:induction false} ScanConn(k: Connective, tail: seq<Token>)
    ensures ScanOr([ConnToken(k)] + tail, 0) == if k == OrC then FoundOr else ScanOr(tail, 0)
  {
    assert ([ConnToken(k)] + tail)[1..] == tail;
  }

  lemma {:induction false} ScanTokens(c: Cond)
    requires Raw(c)
    ensures ScanOr(Tokens(c), 0) == if HasOr(c) then FoundOr else NoOr
  {
    if c.More? {
      TokensMore(c);
      ScanAtom(c.atom, [ConnToken(c.conn)] + Tokens(c.rest));
      ScanConn(c.conn, Tokens(c.rest));
      ScanTokens(c.rest);
    } else {
      assert Tokens(c) == AtomTokens(c.atom) + [];
      ScanAtom(c.atom, []);
    }
  }

  lemma {:induction false} LastToken(c: Cond)
    ensures Tokens(c)[|Tokens(c)| - 1].Variable? || Tokens(c)[|Tokens(c)| - 1].Constant?
  {
    if c.More? { LastToken(c.rest); }
  }

  /** Where eliminate_other_arch looks. */
  lemma {:induction false} FirstTokens(c: Cond)
    ensures AgainstText(c.atom) ==>
              var ts := Tokens(c);
              && ts[0] == Variable(c.atom.lhs.name) && ts[1] == (if c.atom.equal then Eq else Neq)
              && ts[2] == Constant(c.atom.rhs.text) && (c.Last? ==> |ts| == 3)
              && (c.More? ==> |ts| > 4 && ts[3] == ConnToken(c.conn) && ts[4..] == Tokens(c.rest))
    ensures !AgainstText(c.atom) ==> !Tokens(c)[0].Variable? || !Tokens(c)[2].Constant?
  {
    if c.More? { TokensMore(c); }
  }

  /** A chain that begins with a comparison of ARCH. */
  predicate ArchFirst(ts: seq<Token>, text: string, equal: bool) {
    |ts| >= 3 && ts[0] == Variable("ARCH") && ts[1] == (if equal then Eq else Neq) && ts[2] == Constant(text)
  }

  lemma {:induction false} ArchLast(ts: seq<Token>, text: string, equal: bool, arch: string, defined: set<string>)
    requires ArchFirst(ts, text, equal) && |ts| == 3 && Closed(ts)
    ensures Eliminated(ts, arch, defined) == Chain([if (text == arch) == equal then True else False])
  {
  }

  lemma {:induction false} ArchOr(ts: seq<Token>, rest: seq<Token>, text: string, equal: bool, arch: string,
                                  defined: set<string>)
    requires ArchFirst(ts, text, equal) && |ts| > 4 && ts[3] == Or && ts[4..] == rest && Closed(ts) && Closed(rest)
    ensures Eliminated(ts, arch, defined) ==
            if (text == arch) == equal then Chain([True]) else Eliminated(rest, arch, defined)
  {
  }

  lemma {:induction false} ArchAnd(ts: seq<Token>, rest: seq<Token>, text: string, equal: bool, arch: string,
                                   defined: set<string>)
    requires ArchFirst(ts, text, equal) && |ts| > 4 && ts[3] == And && ts[4..] == rest && Closed(ts) && Closed(rest)
    requires ScanOr(rest, 0) != Unbalanced
    ensures Eliminated(ts, arch, defined) ==
            if (text == arch) == equal then Eliminated(rest, arch, defined)
            else if ScanOr(rest, 0) == FoundOr then Chain(ts)
            else Chain([False])
  {
  }

  lemma {:induction false} EliminatedArch(c: Cond, arch: string, defined: set<string>)
    requires Raw(c) && OnArch(c.atom) && Closed(Tokens(c))
    requires c.More? ==> Closed(Tokens(c.rest))
    requires c.More? ==> Eliminated(Tokens(c.rest), arch, defined) == Chain(EntryTokens(Elim(c.rest, arch, defined)))
    ensures Eliminated(Tokens(c), arch, defined) == Chain(EntryTokens(Elim(c, arch, defined)))
  {
    FirstTokens(c);
    var text, equal := c.atom.rhs.text, c.atom.equal;
    if c.Last? {
      ArchLast(Tokens(c), text, equal, arch, defined);
    } else if c.conn == OrC {
      ArchOr(Tokens(c), Tokens(c.rest), text, equal, arch, defined);
    } else {
      ScanTokens(c.rest);
      ArchAnd(Tokens(c), Tokens(c.rest), text, equal, arch, defined);
    }
  }

  lemma {:induction false} EliminatedOther(c: Cond, arch: string, defined: set<string>)
    requires Raw(c) && AgainstText(c.atom) && c.atom.lhs.name != "ARCH" && Closed(Tokens(c))
    requires c.More? ==> Closed(Tokens(c.rest))
    requires c.More? ==> Eliminated(Tokens(c.rest), arch, defined) == Chain(EntryTokens(Elim(c.rest, arch, defined)))
    ensures Eliminated(Tokens(c), arch, defined) == Chain(EntryTokens(Elim(c, arch, defined)))
  {
    FirstTokens(c);
  }

  /** On the tokens of a condition, eliminate_other_arch does what Elim does, and never exits. */
  lemma {:induction false} EliminatedTokens(c: Cond, arch: string, defined: set<string>)
    requires Raw(c)
    ensures Closed(Tokens(c)) && Eliminated(Tokens(c), arch, defined) == Chain(EntryTokens(Elim(c, arch, defined)))
  {
    LastToken(c);
    FirstTokens(c);
    if c.More? { EliminatedTokens(c.rest, arch, defined); }
    if !AgainstText(c.atom) {
    } else if c.atom.lhs.name == "ARCH" {
      EliminatedArch(c, arch, defined);
    } else {
      EliminatedOther(c, arch, defined);
    }
  }

  /** The one place where elimination can change the meaning: an undefined variable decides an -a that an -o follows. */
  predicate ElimSafe(c: Cond, arch: string, defined: set<string>) {
    if OnArch(c.atom) then
      var holds := (c.atom.rhs.text == arch) == c.atom.equal;
      c.More? && holds == (c.conn != OrC) ==> ElimSafe(c.rest, arch, defined)
    else if NeverHolds(c.atom, defined) then
      c.More? ==> if c.conn == OrC then ElimSafe(c.rest, arch, defined) else !HasOr(c.rest)
    else true
  }

  lemma {:induction false} PureIsSafe(c: Cond, arch: string, defined: set<string>)
    requires !Mixed(c)
    ensures ElimSafe(c, arch, defined)
  {
    if c.More? { PureIsSafe(c.rest, arch, defined); }
  }

  lemma {:induction false} FirstAtom(env: Env, c: Cond)
    requires c.More?
    ensures c.conn == OrC ==> Truth(env, c) == (AtomTrue(env, c.atom) || Truth(env, c.rest))
    ensures c.conn != OrC && AtomTrue(env, c.atom) ==> Truth(env, c) == Truth(env, c.rest)
    ensures c.conn != OrC && !AtomTrue(env, c.atom) ==> Truth(env, c) == LaterTrue(env, c.rest)
  {
  }

  /** Elimination keeps the meaning exactly when it is safe or the condition is false anyway. */
  lemma {:induction false} ElimExact(env: Env, c: Cond, arch: string, defined: set<string>)
    requires Raw(c) && Legal(env, arch, defined)
    ensures EntryTrue(env, Elim(c, arch, defined)) == Truth(env, c) <==> ElimSafe(c, arch, defined) || !Truth(env, c)
  {
    if c.More? {
      FirstAtom(env, c);
      ElimExact(env, c.rest, arch, defined);
      if !HasOr(c.rest) { NoOrNoLater(env, c.rest); }
      if NeverHolds(c.atom, defined) && c.conn != OrC {
        assert !AtomTrue(env, c.atom);
      }
    }
  }

  // ---------------------------------------------------------------- remove_bang on conditions

  function UnbangAtom(a: Atom): Atom { if a.bang then Atom(false, a.lhs, !a.equal, a.rhs) else a }

  function Unbang(c: Cond): Cond {
    match c
    case Last(a) => Last(UnbangAtom(a))
    case More(a, conn, rest) => More(UnbangAtom(a), conn, Unbang(rest))
  }

  lemma {:induction false} BangFreeOne(t: Token, tail: seq<Token>)
    requires t != Bang
    ensures BangFree([t] + tail) == [t] + BangFree(tail)
  {
    assert ([t] + tail)[1..] == tail;
  }

  lemma {:induction false} BangFreeThree(x: Token, op: Token, y: Token, tail: seq<Token>)
    requires x != Bang && op != Bang && y != Bang
    ensures BangFree([x, op, y] + tail) == [x, op, y] + BangFree(tail)
  {
    assert [x, op, y] + tail == [x] + ([op] + ([y] + tail));
    BangFreeOne(y, tail);
    BangFreeOne(op, [y] + tail);
    BangFreeOne(x, [op] + ([y] + tail));
    assert [x] + ([op] + ([y] + BangFree(tail))) == [x, op, y] + BangFree(tail);
  }

  lemma {:induction false} BangFreeFour(x: Token, op: Token, y: Token, tail: seq<Token>)
    requires Compares(op) && y != Bang
    ensures BangFree([Bang, x, op, y] + tail) == [x, Flip(op), y] + BangFree(tail)
  {
    var ts := [Bang, x, op, y] + tail;
    assert ts[3..] == [y] + tail;
    BangFreeOne(y, tail);
    assert [x, Flip(op)] + ([y] + BangFree(tail)) == [x, Flip(op), y] + BangFree(tail);
  }

  lemma {:induction false} BangFreeAtom(a: Atom, tail: seq<Token>)
    ensures BangFree(AtomTokens(a) + tail) == AtomTokens(UnbangAtom(a)) + BangFree(tail)
  {
    var x, op, y := OperandToken(a.lhs), if a.equal then Eq else Neq, OperandToken(a.rhs);
    if a.bang {
      assert AtomTokens(a) == [Bang, x, op, y];
      assert AtomTokens(UnbangAtom(a)) == [x, Flip(op), y];
      BangFreeFour(x, op, y, tail);
    } else {
      assert AtomTokens(a) == [x, op, y];
      BangFreeThree(x, op, y, tail);
    }
  }

  lemma {:induction false} BangFreeTokens(c: Cond)
    ensures BangFree(Tokens(c)) == Tokens(Unbang(c))
  {
    if c.Last? {
      assert Tokens(c) == AtomTokens(c.atom) + [];
      BangFreeAtom(c.atom, []);
    } else {
      var tail := [ConnToken(c.conn)] + Tokens(c.rest);
      assert Tokens(c) == AtomTokens(c.atom) + tail;
      BangFreeAtom(c.atom, tail);
      assert tail[1..] == Tokens(c.rest);
      BangFreeTokens(c.rest);
    }
  }

  lemma {:induction false} UnbangTruth(env: Env, c: Cond)
    ensures Plain(Unbang(c)) && (Raw(c) ==> Raw(Unbang(c)))
    ensures HasAnd(Unbang(c)) == HasAnd(c) && HasOr(Unbang(c)) == HasOr(c)
    ensures LeadTrue(env, Unbang(c)) == LeadTrue(env, c) && LaterTrue(env, Unbang(c)) == LaterTrue(env, c)
  {
    if c.More? { UnbangTruth(env, c.rest); }
  }

  // ---------------------------------------------------------------- else on conditions

  function InvertConn(k: Connective): Connective { if k == AndC then OrC else And1C }

  /** Token-wise inversion. */
  function Invert(c: Cond): Cond {
    match c
    case Last(a) => Last(a.(equal := !a.equal))
    case More(a, conn, rest) => More(a.(equal := !a.equal), InvertConn(conn), Invert(rest))
  }

  lemma {:induction false} InvertedConcat(a: seq<Token>, b: seq<Token>)
    ensures Inverted(a + b) == Inverted(a) + Inverted(b)
  {
    if |a| == 0 {
      assert a + b == b;
    } else {
      assert (a + b)[1..] == a[1..] + b;
      InvertedConcat(a[1..], b);
    }
  }

  lemma {:induction false} InvertedAtom(a: Atom)
    requires !a.bang
    ensures Inverted(AtomTokens(a)) == AtomTokens(a.(equal := !a.equal))
  {
    var ts := AtomTokens(a);
    assert ts[1..][1..] == ts[2..] && ts[2..][1..] == [];
    assert Inverted(ts) == [ts[0]] + Inverted(ts[1..]);
    assert Inverted(ts[1..]) == [InvertToken(ts[1])] + Inverted(ts[2..]);
    assert Inverted(ts[2..]) == [ts[2]] + Inverted([]);
  }

  lemma {:induction false} InvertedConn(k: Connective)
    ensures Inverted([ConnToken(k)]) == [ConnToken(InvertConn(k))]
  {
    assert [ConnToken(k)][1..] == [] && Inverted([]) == [];
  }

  lemma {:induction false} InvertedTokens(c: Cond)
    requires Plain(c)
    ensures Inverted(Tokens(c)) == Tokens(Invert(c))
  {
    InvertedAtom(c.atom);
    if c.More? {
      var conn, tail := [ConnToken(c.conn)], Tokens(c.rest);
      TokensMore(c);
      TokensMore(Invert(c));
      InvertedConcat(AtomTokens(c.atom), conn + tail);
      InvertedConcat(conn, tail);
      InvertedConn(c.conn);
      InvertedTokens(c.rest);
    }
  }

  lemma {:induction false} InvertAnds(env: Env, c: Cond)
    requires Plain(c) && Raw(c) && !HasOr(c)
    ensures Plain(Invert(c)) && Truth(env, Invert(c)) == !Truth(env, c)
  {
    NoOrNoLater(env, c);
    if c.More? {
      InvertAnds(env, c.rest);
      FirstAtom(env, Invert(c));
      NoOrNoLater(env, c.rest);
    }
  }

  lemma {:induction false} InvertOrs(env: Env, c: Cond)
    requires Plain(c) && Raw(c) && !HasAnd(c)
    ensures Plain(Invert(c)) && !HasOr(Invert(c)) && LeadTrue(env, Invert(c)) == !Truth(env, c)
  {
    if c.More? {
      InvertOrs(env, c.rest);
      FirstAtom(env, c);
    }
  }

  /** Without mixing, the inverted condition is the negation. */
  lemma {:induction false} InvertTruth(env: Env, c: Cond)
    requires Plain(c) && Raw(c) && !Mixed(c)
    ensures Plain(Invert(c)) && Truth(env, Invert(c)) == !Truth(env, c)
  {
    if HasOr(c) {
      InvertOrs(env, c);
      NoOrNoLater(env, Invert(c));
    } else {
      InvertAnds(env, c);
    }
  }

  // ---------------------------------------------------------------- else on mixed conditions

  /** None of the comparisons up to the first -a holds. */
  predicate FirstRunFails(env: Env, c: Cond) {
    !AtomTrue(env, c.atom) && (c.More? && c.conn == OrC ==> FirstRunFails(env, c.rest))
  }

  /** After some -a, none of the comparisons up to the next -a holds. */
  predicate LaterRunFails(env: Env, c: Cond) {
    c.More? && (LaterRunFails(env, c.rest) || (c.conn != OrC && FirstRunFails(env, c.rest)))
  }

  /** Some stretch of comparisons joined by -o has none that holds. */
  predicate RunFails(env: Env, c: Cond) { FirstRunFails(env, c) || LaterRunFails(env, c) }

  /** The inverted condition is true exactly when such a stretch fails: -o has come to bind tighter than -a. */
  lemma {:induction false} InvertMeans(env: Env, c: Cond)
    requires Plain(c) && Raw(c)
    ensures Plain(Invert(c))
    ensures LeadTrue(env, Invert(c)) == FirstRunFails(env, c) && LaterTrue(env, Invert(c)) == LaterRunFails(env, c)
  {
    if c.More? { InvertMeans(env, c.rest); }
  }

  lemma {:induction false} UnbangRuns(env: Env, c: Cond)
    ensures FirstRunFails(env, Unbang(c)) == FirstRunFails(env, c)
    ensures LaterRunFails(env, Unbang(c)) == LaterRunFails(env, c)
  {
    if c.More? { UnbangRuns(env, c.rest); }
  }

  /** A condition that is not true has a stretch that fails. */
  lemma {:induction false} TrueOrRunFails(env: Env, c: Cond)
    ensures Truth(env, c) || RunFails(env, c)
  {
    if c.More? {
      TrueOrRunFails(env, c.rest);
      FirstAtom(env, c);
    }
  }

  /** An else is never lost, and is wrong exactly when the condition is true and a stretch joined by -o fails. */
  lemma {:induction false} InvertExact(env: Env, c: Cond)
    requires Plain(c) && Raw(c)
    ensures Truth(env, c) || Truth(env, Invert(c))
    ensures Truth(env, Invert(c)) == !Truth(env, c) <==> !(Truth(env, c) && RunFails(env, c))
  {
    InvertMeans(env, c);
    TrueOrRunFails(env, c);
  }

  predicate AllAre(env: Env, c: Cond, b: bool) {
    AtomTrue(env, c.atom) == b && (c.More? ==> AllAre(env, c.rest, b))
  }

  lemma {:induction false} AllHolding(env: Env, c: Cond)
    requires AllAre(env, c, true)
    ensures LeadTrue(env, c) && (HasOr(c) ==> LaterTrue(env, c))
  {
    if c.More? { AllHolding(env, c.rest); }
  }

  lemma {:induction false} NoneHolding(env: Env, c: Cond)
    requires AllAre(env, c, false)
    ensures FirstRunFails(env, c) && (HasAnd(c) ==> LaterRunFails(env, c))
  {
    if c.More? { NoneHolding(env, c.rest); }
  }

  /** Where the first comparison is against all others, in the way its connective asks for, both branches are taken. */
  lemma {:induction false} MixedBoth(env: Env, c: Cond)
    requires Mixed(c) && AtomTrue(env, c.atom) == (c.conn == OrC) && AllAre(env, c.rest, c.conn != OrC)
    ensures Truth(env, c) && RunFails(env, c)
  {
    FirstAtom(env, c);
    if c.conn == OrC { NoneHolding(env, c.rest); } else { AllHolding(env, c.rest); }
  }

  function Vars(c: Cond): set<string> {
    (if c.atom.lhs.Var? then {c.atom.lhs.name} else {}) + (if c.More? then Vars(c.rest) else {})
  }

  /** Comparisons of different variables, all defined by some statement, with texts. */
  predicate Independent(c: Cond, defined: set<string>) {
    && AgainstText(c.atom) && c.atom.lhs.name in defined && c.atom.lhs.name != "ARCH"
    && (c.More? ==> c.atom.lhs.name !in Vars(c.rest) && Independent(c.rest, defined))
  }

  function Updated(env: Env, name: string, value: string): Env { n => if n == name then value else env(n) }

  lemma {:induction false} UpdatedElsewhere(env: Env, name: string, value: string, c: Cond, defined: set<string>,
                                            b: bool)
    requires Independent(c, defined) && name !in Vars(c) && AllAre(env, c, b)
    ensures AllAre(Updated(env, name, value), c, b)
  {
    if c.More? { UpdatedElsewhere(env, name, value, c.rest, defined, b); }
  }

  /** A value that makes a comparison with a text come out as wanted. */
  function Deciding(a: Atom, b: bool): string
    requires AgainstText(a)
  {
    if a.equal == b then a.rhs.text else a.rhs.text + "x"
  }

  lemma {:induction false} Decides(env: Env, a: Atom, b: bool)
    requires AgainstText(a)
    ensures AtomTrue(Updated(env, a.lhs.name, Deciding(a, b)), a) == b
  {
    assert |a.rhs.text + "x"| != |a.rhs.text|;
  }

  lemma {:induction false} AssignmentFor(c: Cond, arch: string, defined: set<string>, b: bool) returns (env: Env)
    requires Independent(c, defined)
    ensures Legal(env, arch, defined) && AllAre(env, c, b)
  {
    var base: Env := n => if n == "ARCH" then arch else "";
    if c.More? { base := AssignmentFor(c.rest, arch, defined, b); }
    env := Updated(base, c.atom.lhs.name, Deciding(c.atom, b));
    Decides(base, c.atom, b);
    if c.More? { UpdatedElsewhere(base, c.atom.lhs.name, Deciding(c.atom, b), c.rest, defined, b); }
  }

  /** An assignment the script can meet under which both branches of a mixed condition are taken. */
  lemma {:induction false} BothTaken(c: Cond, arch: string, defined: set<string>) returns (env: Env)
    requires Independent(c, defined) && Mixed(c)
    ensures Legal(env, arch, defined) && Truth(env, c) && RunFails(env, c)
  {
    var b := c.conn == OrC;
    var base := AssignmentFor(c.rest, arch, defined, !b);
    env := Updated(base, c.atom.lhs.name, Deciding(c.atom, b));
    Decides(base, c.atom, b);
    UpdatedElsewhere(base, c.atom.lhs.name, Deciding(c.atom, b), c.rest, defined, !b);
    MixedBoth(env, c);
  }

  lemma {:induction false} IndependentPlain(c: Cond, defined: set<string>)
    requires Independent(c, defined)
    ensures Plain(c)
  {
    if c.More? { IndependentPlain(c.rest, defined); }
  }

  /** For independent comparisons, inversion is negation under every assignment exactly when nothing is mixed. */
  lemma {:induction false} InvertSound(c: Cond, arch: string, defined: set<string>)
    requires Raw(c) && Independent(c, defined)
    ensures (forall env: Env {:trigger Legal(env, arch, defined)} ::
               Legal(env, arch, defined) ==> Truth(env, Invert(c)) == !Truth(env, c)) <==> !Mixed(c)
  {
    IndependentPlain(c, defined);
    if Mixed(c) {
      var env := BothTaken(c, arch, defined);
      InvertExact(env, c);
    } else {
      forall env: Env | Legal(env, arch, defined) ensures Truth(env, Invert(c)) == !Truth(env, c) {
        InvertTruth(env, c);
      }
    }
  }

  // ---------------------------------------------------------------- where elimination goes wrong

  /** What elimination decides wrongly it takes for false. */
  lemma {:induction false} UnsafeIsNever(c: Cond, arch: string, defined: set<string>)
    requires !ElimSafe(c, arch, defined)
    ensures Elim(c, arch, defined) == Never
  {
    if c.More? && !ElimSafe(c.rest, arch, defined) { UnsafeIsNever(c.rest, arch, defined); }
  }

  /** An undefined variable before -a decides the condition although what follows the -o is true. */
  lemma {:induction false} UndefinedDecides(env: Env, a: Atom, b: Atom, d: Atom, arch: string, defined: set<string>)
    requires NeverHolds(a, defined) && AtomTrue(env, d)
    ensures var c := More(a, AndC, More(b, OrC, Last(d)));
            Raw(c) && !ElimSafe(c, arch, defined) && Truth(env, c) && Elim(c, arch, defined) == Never
  {
    var r := More(b, OrC, Last(d));
    assert LeadTrue(env, Last(d)) && LaterTrue(env, r);
    assert HasOr(r) && Raw(Last(d)) && Raw(r);
    var c := More(a, AndC, r);
    FirstAtom(env, c);
    assert LaterTrue(env, c);
    UnsafeIsNever(c, arch, defined);
  }
}
