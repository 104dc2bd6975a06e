// Lists of requests: taking an element out, and strictly or weakly sorted lists.
module Lists {
  datatype Option<T> = None | Some(value: T)

  ghost predicate NoDup<T(!new)>(s: seq<T>) {
    forall i, j :: 0 <= i < j < |s| ==> s[i] != s[j]
  }

  /** The list without an element (list_del of the entry). */
  function Without<T(==)>(s: seq<T>, x: T): seq<T> {
    if |s| == 0 then [] else if s[0] == x then Without(s[1..], x) else [s[0]] + Without(s[1..], x)
  }

  lemma {:induction false} WithoutMember<T>(s: seq<T>, x: T, y: T)
    ensures y in Without(s, x) <==> y in s && y != x
  {
    if |s| > 0 {
      WithoutMember(s[1..], x, y);
      assert y in s <==> y == s[0] || y in s[1..];
    }
  }

  lemma {:induction false} WithoutMembers<T>(s: seq<T>, x: T)
    ensures forall y :: y in Without(s, x) <==> y in s && y != x
  {
    forall y ensures y in Without(s, x) <==> y in s && y != x { WithoutMember(s, x, y); }
  }

  lemma {:induction false} WithoutAbsent<T>(s: seq<T>, x: T)
    requires x !in s
    ensures Without(s, x) == s
  {
    if |s| > 0 { WithoutAbsent(s[1..], x); }
  }

  lemma {:induction false} ConsNoDup<T(!new)>(x: T, s: seq<T>)
    requires NoDup(s) && x !in s
    ensures NoDup([x] + s)
  {
  }

  lemma {:induction false} WithoutNoDup<T(!new)>(s: seq<T>, x: T)
    requires NoDup(s)
    ensures NoDup(Without(s, x))
    ensures |Without(s, x)| == if x in s then |s| - 1 else |s|
  {
    if |s| > 0 {
      WithoutNoDup(s[1..], x);
      assert s[0] !in s[1..];
      WithoutMember(s[1..], x, s[0]);
      if s[0] == x {
        WithoutAbsent(s[1..], x);
      } else {
        assert x in s <==> x in s[1..];
        ConsNoDup(s[0], Without(s[1..], x));
      }
    }
  }

  lemma {:induction false} SnocNoDup<T(!new)>(s: seq<T>, x: T)
    requires NoDup(s) && x !in s
    ensures NoDup(s + [x])
  {
  }

  /** Taking an element out by its position. */
  lemma {:induction false} WithoutAt<T(!new)>(s: seq<T>, k: nat)
    requires NoDup(s) && k < |s|
    ensures Without(s, s[k]) == s[..k] + s[k + 1..]
  {
    if k == 0 {
      WithoutAbsent(s[1..], s[0]);
      assert s[..0] + s[1..] == s[1..];
    } else {
      assert s[1..][k - 1] == s[k];
      WithoutAt(s[1..], k - 1);
      assert s[1..][..k - 1] == s[1..k] && s[1..][k..] == s[k + 1..];
      assert [s[0]] + s[1..k] == s[..k];
    }
  }

  // ---------------------------------------------------------------- sorted by a key

  ghost predicate Increasing<T(!new)>(s: seq<T>, key: T -> int) {
    forall i, j {:trigger key(s[i]), key(s[j])} :: 0 <= i < j < |s| ==> key(s[i]) < key(s[j])
  }

  ghost predicate NonDecreasing<T(!new)>(s: seq<T>, key: T -> int) {
    forall i, j {:trigger key(s[i]), key(s[j])} :: 0 <= i < j < |s| ==> key(s[i]) <= key(s[j])
  }

  lemma {:induction false} IncreasingNoDup<T(!new)>(s: seq<T>, key: T -> int)
    requires Increasing(s, key)
    ensures NoDup(s)
  {
    forall i, j | 0 <= i < j < |s| ensures s[i] != s[j] { assert key(s[i]) < key(s[j]); }
  }

  /** Positions of what remains. */
  lemma {:induction false} WithoutOrder<T(!new)>(s: seq<T>, x: T, i: nat, j: nat) returns (i': nat, j': nat)
    requires i < j < |Without(s, x)|
    ensures i' < j' < |s| && s[i'] == Without(s, x)[i] && s[j'] == Without(s, x)[j]
  {
    if s[0] == x {
      i', j' := WithoutOrder(s[1..], x, i, j);
      i', j' := i' + 1, j' + 1;
    } else if i > 0 {
      i', j' := WithoutOrder(s[1..], x, i - 1, j - 1);
      i', j' := i' + 1, j' + 1;
    } else {
      var w := Without(s[1..], x);
      WithoutMember(s[1..], x, w[j - 1]);
      var k :| 0 <= k < |s[1..]| && s[1..][k] == w[j - 1];
      i', j' := 0, k + 1;
    }
  }

  lemma {:induction false} WithoutIncreasing<T(!new)>(s: seq<T>, x: T, key: T -> int)
    requires Increasing(s, key)
    ensures Increasing(Without(s, x), key)
  {
    var w := Without(s, x);
    forall i, j | 0 <= i < j < |w| ensures key(w[i]) < key(w[j]) {
      var i', j' := WithoutOrder(s, x, i, j);
    }
  }

  lemma {:induction false} WithoutNonDecreasing<T(!new)>(s: seq<T>, x: T, key: T -> int)
    requires NonDecreasing(s, key)
    ensures NonDecreasing(Without(s, x), key)
  {
    var w := Without(s, x);
    forall i, j | 0 <= i < j < |w| ensures key(w[i]) <= key(w[j]) {
      var i', j' := WithoutOrder(s, x, i, j);
    }
  }
}
