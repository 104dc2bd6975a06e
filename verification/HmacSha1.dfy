// HMAC with SHA-1 underneath, by way of the buffered context of sha1.c.
module HmacSha1 {
  import opened Digest
  import opened Hmac
  import Sha1

  /** The size of a block of SHA-1. */
  const SIZE: nat := 64

  /** The SHA-1 digest of a message: the bytes `out` makes of the final state. */
  function Sha1Of<H>(initial: H, transform: (H, seq<byte>) -> H, out: H -> seq<byte>): seq<byte> -> seq<byte> {
    (m: seq<byte>) => out(DigestOf(transform, initial, m, Sha1.LengthField(|m|)))
  }

  lemma {:induction false} JoinedCons(piece: seq<byte>, pieces: seq<seq<byte>>, k: nat)
    requires k <= |pieces|
    ensures Joined([piece] + pieces, k + 1) == piece + Joined(pieces, k)
  {
    if k > 0 {
      JoinedCons(piece, pieces, k - 1);
      assert ([piece] + pieces)[k] == pieces[k - 1];
      assert (piece + Joined(pieces, k - 1)) + pieces[k - 1] == piece + (Joined(pieces, k - 1) + pieces[k - 1]);
    }
  }

  /** The digest of what the pieces make up, through init, updates and final of sha1.c. */
  method Hash<H>(initial: H, transform: (H, seq<byte>) -> H, out: H -> seq<byte>, pieces: seq<seq<byte>>)
      returns (d: seq<byte>)
    ensures d == Sha1Of(initial, transform, out)(Joined(pieces, |pieces|))
  {
    var h := Sha1.HashPieces(initial, transform, pieces);
    d := out(h);
  }

  method Key<H>(initial: H, transform: (H, seq<byte>) -> H, out: H -> seq<byte>, key: seq<byte>) returns (k: seq<byte>)
    requires forall h :: |out(h)| <= SIZE
    ensures k == BlockKey(Sha1Of(initial, transform, out), SIZE, key) && |k| == SIZE
  {
    k := key;
    if |key| > SIZE {
      var h := Sha1.HashPieces(initial, transform, [key]);
      k := out(h);
      JoinedCons(key, [], 0);
      assert [key] + [] == [key] && key + Joined([], 0) == key;
    }
    k := k + Zeros(SIZE - |k|);
  }

  /** Keyed hashing of a message in pieces, in two passes of sha1.c, is HMAC (section 2 of RFC 2104). */
  method TwoPasses<H>(initial: H, transform: (H, seq<byte>) -> H, out: H -> seq<byte>, key: seq<byte>,
                      pieces: seq<seq<byte>>)
      returns (mac: seq<byte>)
    requires forall h :: |out(h)| <= SIZE
    ensures mac == HmacOf(Sha1Of(initial, transform, out), SIZE, key, Joined(pieces, |pieces|))
  {
    var k := Key(initial, transform, out, key);
    var ipad, opad := XorAll(k, 0x36), XorAll(k, 0x5c);
    var inner := Hash(initial, transform, out, [ipad] + pieces);
    JoinedCons(ipad, pieces, |pieces|);
    mac := Hash(initial, transform, out, [opad] + [inner]);
    JoinedCons(opad, [inner], 1);
    JoinedCons(inner, [], 0);
    assert [inner] + [] == [inner] && inner + Joined([], 0) == inner;
  }

  /** Through the context of hmac.c, whose calls may fail: without failures the result is that of two passes. */
  method Mac<H>(initial: H, transform: (H, seq<byte>) -> H, out: H -> seq<byte>, size: nat, key: seq<byte>,
                pieces: seq<seq<byte>>, keyFails: int, initFails: int, padFails: int, fails: seq<int>, finalFails: int,
                digestFails: int)
      returns (err: int, mac: seq<byte>)
    requires (forall h :: |out(h)| == size) && size <= SIZE && |fails| == |pieces|
    ensures err == 0 <==> (|key| > SIZE ==> keyFails == 0) && initFails == 0 && padFails == 0
                          && (forall i :: 0 <= i < |fails| ==> fails[i] == 0) && finalFails == 0 && digestFails == 0
    ensures err == 0 ==> mac == HmacOf(Sha1Of(initial, transform, out), SIZE, key, Joined(pieces, |pieces|))
  {
    var digest := Sha1Of(initial, transform, out);
    forall m: seq<byte> ensures |digest(m)| == size {
      assert digest(m) == out(DigestOf(transform, initial, m, Sha1.LengthField(|m|)));
    }
    var child := new ChildHash(digest, size);
    var hmac := new HmacCtx(SIZE, child);
    mac := [];
    err := hmac.SetKey(key, keyFails);
    if err != 0 {
      return;
    }
    err := hmac.Init(initFails, padFails);
    if err != 0 {
      return;
    }
    for k := 0 to |pieces|
      invariant err == 0 && hmac.Running() && hmac.Keyed(key) && hmac.msg == Joined(pieces, k)
      invariant forall i :: 0 <= i < k ==> fails[i] == 0
    {
      err := hmac.Update(pieces[k], fails[k]);
      if err != 0 {
        return;
      }
    }
    err, mac := hmac.Final(key, finalFails, digestFails);
  }
}
