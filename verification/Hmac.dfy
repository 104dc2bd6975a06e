// hmac.c over any hash: keys, and the streaming and the one-shot form, in one context buffer.
module Hmac {
  import opened Digest

  // ---------------------------------------------------------------- section 2 of RFC 2104

  function XorAll(s: seq<byte>, x: byte): (r: seq<byte>)
    ensures |r| == |s|
  {
    seq(|s|, i requires 0 <= i < |s| => s[i] ^ x)
  }

  lemma {:induction false} XorAt(s: seq<byte>, x: byte, i: nat)
    requires i < |s|
    ensures XorAll(s, x)[i] == s[i] ^ x
  {
  }

  /** The key brought to the block size: hashed if it is longer, then filled up with zeros. */
  function BlockKey(digest: seq<byte> -> seq<byte>, bs: nat, key: seq<byte>): seq<byte> {
    var k := if |key| > bs then digest(key) else key;
    if |k| <= bs then k + Zeros(bs - |k|) else k
  }

  function HmacOf(digest: seq<byte> -> seq<byte>, bs: nat, key: seq<byte>, m: seq<byte>): seq<byte> {
    var k := BlockKey(digest, bs, key);
    digest(XorAll(k, 0x5c) + digest(XorAll(k, 0x36) + m))
  }

  // ---------------------------------------------------------------- the hash underneath

  /** A hash with init, update and final; what it has been fed since init decides the digest. Calls may fail. */
  class ChildHash {
    const digest: seq<byte> -> seq<byte>
    const size: nat
    var fed: seq<byte>

    ghost predicate Valid()
      reads this
    {
      forall s :: |digest(s)| == size
    }

    constructor (digest: seq<byte> -> seq<byte>, size: nat)
      requires forall s :: |digest(s)| == size
      ensures Valid() && this.digest == digest && this.size == size
    {
      this.digest, this.size, fed := digest, size, [];
    }

    method Init(fails: int) returns (err: int)
      modifies this`fed
      ensures err == fails && (err == 0 ==> fed == [])
    {
      if fails == 0 {
        fed := [];
      }
      return fails;
    }

    method Update(data: seq<byte>, fails: int) returns (err: int)
      modifies this`fed
      ensures err == fails && (err == 0 ==> fed == old(fed) + data)
    {
      if fails == 0 {
        fed := fed + data;
      }
      return fails;
    }

    method Final(fails: int) returns (err: int, out: seq<byte>)
      requires Valid()
      ensures err == fails && (err == 0 ==> out == digest(fed) && |out| == size)
    {
      return fails, digest(fed);
    }

    /** crypto_hash_digest: everything at once */
    method DigestAll(data: seq<byte>, fails: int) returns (err: int, out: seq<byte>)
      requires Valid()
      modifies this`fed
      ensures err == fails && (err == 0 ==> out == digest(data) && |out| == size)
    {
      fed := data;
      return fails, digest(data);
    }
  }

  // ---------------------------------------------------------------- hmac.c

  class HmacCtx {
    const bs: nat
    const ds: nat
    const ctx: array<byte>        // ipad, opad and digest, one after the other
    const child: ChildHash
    ghost var msg: seq<byte>

    ghost predicate Valid()
      reads this, child
    {
      ctx.Length == 2 * bs + ds && ds <= bs && child.size == ds && child.Valid()
    }

    /** The pads hold the key. */
    ghost predicate Keyed(key: seq<byte>)
      reads this, ctx, child
    {
      && Valid()
      && ctx[..bs] == XorAll(BlockKey(child.digest, bs, key), 0x36)
      && ctx[bs..2 * bs] == XorAll(BlockKey(child.digest, bs, key), 0x5c)
    }

    /** The hash underneath has been fed the inner pad and msg. */
    ghost predicate Running()
      reads this, ctx, child
    {
      Valid() && child.fed == ctx[..bs] + msg
    }

    constructor (bs: nat, child: ChildHash)
      requires child.Valid() && child.size <= bs
      ensures Valid() && this.bs == bs && this.child == child && fresh(ctx)
    {
      this.bs, this.ds, this.child, msg := bs, child.size, child, [];
      ctx := new byte[2 * bs + child.size];
    }

    /** memcpy into the context */
    method Copy(at: nat, data: seq<byte>)
      requires at + |data| <= ctx.Length
      modifies ctx
      ensures ctx[..] == old(ctx[..at]) + data + old(ctx[at + |data|..])
    {
      for k := 0 to |data|
        invariant ctx[..at] == old(ctx[..at]) && ctx[at..at + k] == data[..k]
        invariant ctx[at + k..] == old(ctx[at + k..])
      {
        ghost var before := ctx[..];
        ctx[at + k] := data[k];
        assert ctx[..] == before[at + k := data[k]];
        assert ctx[at..at + k + 1] == before[at..at + k] + [data[k]];
      }
    }

    /** The loop of hmac_setkey */
    method XorPads(ghost k: seq<byte>)
      requires |k| == bs && 2 * bs <= ctx.Length && ctx[..bs] == k && ctx[bs..2 * bs] == k
      modifies ctx
      ensures ctx[..bs] == XorAll(k, 0x36) && ctx[bs..2 * bs] == XorAll(k, 0x5c)
    {
      PadsAre(k);
      ghost var inner, outer := XorAll(k, 0x36), XorAll(k, 0x5c);
      for i := 0 to bs
        invariant forall j :: 0 <= j < i ==> ctx[j] == inner[j] && ctx[bs + j] == outer[j]
        invariant forall j :: i <= j < bs ==> ctx[j] == k[j] && ctx[bs + j] == k[j]
      {
        XorAt(k, 0x36, i);
        XorAt(k, 0x5c, i);
        XorPad(i, 0x36);
        XorPad(bs + i, 0x5c);
      }
      assert ctx[..bs] == inner && ctx[bs..2 * bs] == outer;
    }

    method XorPad(i: nat, x: byte)
      requires i < ctx.Length
      modifies ctx
      ensures ctx[i] == old(ctx[i]) ^ x && forall j :: 0 <= j < ctx.Length && j != i ==> ctx[j] == old(ctx[j])
    {
      ctx[i] := ctx[i] ^ x;
    }

    lemma {:induction false} PadsAre(k: seq<byte>)
      requires |k| == bs && 2 * bs <= ctx.Length && ctx[..bs] == k && ctx[bs..2 * bs] == k
      ensures forall j :: 0 <= j < bs ==> ctx[j] == k[j] && ctx[bs + j] == k[j]
    {
      forall j | 0 <= j < bs ensures ctx[j] == k[j] && ctx[bs + j] == k[j] {
        assert ctx[j] == ctx[..bs][j] && ctx[bs + j] == ctx[bs..2 * bs][j];
      }
    }

    /** hmac_setkey */
    method SetKey(key: seq<byte>, fails: int) returns (err: int)
      requires Valid()
      modifies ctx, child`fed
      ensures err == (if |key| > bs then fails else 0)
      ensures err == 0 ==> Keyed(key)
    {
      var inkey := key;
      if |key| > bs {
        var out;
        err, out := child.DigestAll(key, fails);
        if err != 0 {
          return;
        }
        Copy(2 * bs, out);
        inkey := ctx[2 * bs..];
        assert inkey == out;
      }
      ghost var k := BlockKey(child.digest, bs, key);
      Copy(0, inkey);
      assert ctx[..|inkey|] == inkey;
      Copy(|inkey|, Zeros(bs - |inkey|));
      assert ctx[..bs] == k;
      Copy(bs, ctx[..bs]);
      assert ctx[bs..2 * bs] == k && ctx[..bs] == k;
      XorPads(k);
      return 0;
    }

    /** hmac_init */
    method Init(initFails: int, updateFails: int) returns (err: int)
      requires Valid()
      modifies child`fed, this`msg
      ensures err == 0 <==> initFails == 0 && updateFails == 0
      ensures err == 0 ==> Running() && msg == []
    {
      msg := [];
      err := child.Init(initFails);
      if err != 0 {
        return;
      }
      err := child.Update(ctx[..bs], updateFails);
      assert [] + ctx[..bs] == ctx[..bs] + [];
    }

    /** hmac_update */
    method Update(data: seq<byte>, fails: int) returns (err: int)
      requires Running()
      modifies child`fed, this`msg
      ensures err == fails && (err == 0 ==> Running() && msg == old(msg) + data)
    {
      err := child.Update(data, fails);
      assert ctx[..bs] + msg + data == ctx[..bs] + (msg + data);
      msg := msg + data;
    }

    /** hmac_final: the inner digest goes right behind the outer pad, and both are hashed together */
    method Final(ghost key: seq<byte>, finalFails: int, digestFails: int) returns (err: int, out: seq<byte>)
      requires Running() && Keyed(key)
      modifies ctx, child`fed
      ensures err == 0 <==> finalFails == 0 && digestFails == 0
      ensures err == 0 ==> out == HmacOf(child.digest, bs, key, msg) && Keyed(key)
    {
      var inner;
      err, inner := child.Final(finalFails);
      if err != 0 {
        return err, [];
      }
      Copy(2 * bs, inner);
      PadsStay(old(ctx[..]), ctx[..], inner);
      assert ctx[bs..] == ctx[bs..2 * bs] + inner;
      err, out := child.DigestAll(ctx[bs..], digestFails);
    }

    /** Writing the digest leaves the pads alone. */
    lemma {:induction false} PadsStay(before: seq<byte>, after: seq<byte>, inner: seq<byte>)
      requires |before| == 2 * bs + ds && |inner| == ds
      requires after == before[..2 * bs] + inner + before[2 * bs + |inner|..]
      ensures after[..bs] == before[..bs] && after[bs..2 * bs] == before[bs..2 * bs] && after[2 * bs..] == inner
    {
    }

    /** hmac_digest */
    method DigestMessage(data: seq<byte>, ghost key: seq<byte>, innerFails: int, outerFails: int)
        returns (err: int, out: seq<byte>)
      requires Keyed(key)
      modifies ctx, child`fed
      ensures err == 0 <==> innerFails == 0 && outerFails == 0
      ensures err == 0 ==> out == HmacOf(child.digest, bs, key, data) && Keyed(key)
    {
      var inner;
      err, inner := child.DigestAll(ctx[..bs] + data, innerFails);
      if err != 0 {
        return err, [];
      }
      Copy(2 * bs, inner);
      PadsStay(old(ctx[..]), ctx[..], inner);
      assert ctx[bs..] == ctx[bs..2 * bs] + inner;
      err, out := child.DigestAll(ctx[bs..], outerFails);
    }
  }

  /** Streaming in any pieces and doing it at once give the same, and both are the formula. */
  method StreamAndDigest(hmac: HmacCtx, key: seq<byte>, pieces: seq<seq<byte>>)
      returns (streamed: seq<byte>, once: seq<byte>)
    requires hmac.Valid()
    modifies hmac, hmac.ctx, hmac.child
    ensures streamed == once == HmacOf(hmac.child.digest, hmac.bs, key, Joined(pieces, |pieces|))
  {
    var err := hmac.SetKey(key, 0);
    err := hmac.Init(0, 0);
    var all := [];
    for k := 0 to |pieces|
      invariant hmac.Running() && hmac.Keyed(key) && hmac.msg == Joined(pieces, k) == all
    {
      err := hmac.Update(pieces[k], 0);
      all := all + pieces[k];
    }
    err, streamed := hmac.Final(key, 0, 0);
    err, once := hmac.DigestMessage(all, key, 0, 0);
  }
}
