// md5.c: the buffering around the transform.
module Md5 {
  import opened Digest

  /** The length field of MD5: the number of bits, least significant byte first (section 3.2 of RFC 1321). */
  function LengthField(n: nat): (f: seq<byte>)
    ensures |f| == 8
  {
    LittleEndian(Bits(n), 8)
  }

  lemma {:induction false} FourBytes()
    ensures Pow256(4) == TWO32
  {
    assert Pow256(1) == 256 && Pow256(2) == 0x1_0000 && Pow256(3) == 0x100_0000;
  }

  /** The two words of md5_final are the length field. */
  lemma {:induction false} LengthWords(n: nat)
    ensures var count := n % TWO64;
            LengthField(n) == LittleEndian((8 * count) % TWO32, 4) + LittleEndian((count / 0x2000_0000) % TWO32, 4)
  {
    var count := n % TWO64;
    var h, l := count / 0x2000_0000, count % 0x2000_0000;
    assert 8 * count == h * TWO32 + 8 * l;
    DivUnique(8 * count, TWO32, h, 8 * l);
    var h1, h0 := h / TWO32, h % TWO32;
    assert h == h1 * TWO32 + h0;
    assert 8 * count == h1 * TWO64 + (h0 * TWO32 + 8 * l);
    DivUnique(8 * count, TWO64, h1, h0 * TWO32 + 8 * l);
    ShiftedCount(n);
    FourBytes();
    LittleEndianJoin(8 * l, h0, 4, 4);
  }

  lemma {:induction false} ZerosSplit(z: nat, a: nat)
    requires a <= z
    ensures Zeros(z) == Zeros(a) + Zeros(z - a)
  {
  }

  /** Padding that does not fit into one block. */
  lemma {:induction false} TwoBlocks(tail: seq<byte>, z: nat, a: nat, field: seq<byte>)
    requires z == a + 56
    ensures tail + ([0x80] + Zeros(z) + field) == (tail + [0x80] + Zeros(a)) + (Zeros(56) + field)
  {
    ZerosSplit(z, a);
  }

  class Md5Ctx<H> {
    var hash: H
    const block: array<byte>
    var byteCount: nat
    const initial: H
    const transform: (H, seq<byte>) -> H
    ghost var msg: seq<byte>

    /** The context has taken in msg. */
    ghost predicate Valid()
      reads this, block
    {
      && block.Length == 64 && byteCount == |msg| % TWO64
      && hash == Fold(transform, initial, msg) && block[..|msg| % 64] == Tail(msg)
    }

    /** md5_init */
    constructor (initial: H, transform: (H, seq<byte>) -> H)
      ensures Valid() && msg == [] && fresh(block) && this.initial == initial && this.transform == transform
    {
      this.initial, this.transform := initial, transform;
      byteCount, hash, msg := 0, initial, [];
      block := new byte[64];
    }

    /** memcpy into the block */
    method Copy(at: nat, data: seq<byte>)
      requires at + |data| <= block.Length
      modifies block
      ensures block[..] == old(block[..at]) + data + old(block[at + |data|..])
    {
      for k := 0 to |data|
        invariant block[..at] == old(block[..at]) && block[at..at + k] == data[..k]
        invariant block[at + k..] == old(block[at + k..])
      {
        ghost var before := block[..];
        block[at + k] := data[k];
        assert block[..] == before[at + k := data[k]];
        assert block[at..at + k + 1] == before[at..at + k] + [data[k]];
      }
    }

    /** The whole blocks of the data, copied one by one into the block */
    method Blocks(data: seq<byte>) returns (rest: seq<byte>)
      requires block.Length == 64
      modifies this`hash, block
      ensures hash == Fold(transform, old(hash), data) && rest == Tail(data)
    {
      rest := data;
      while |rest| >= 64
        invariant Fold(transform, hash, rest) == Fold(transform, old(hash), data) && Tail(rest) == Tail(data)
        decreases |rest|
      {
        assert rest == rest[..64] + rest[64..];
        BlockFirst(transform, hash, rest[..64], rest[64..]);
        Copy(0, rest[..64]);
        assert block[..] == rest[..64];
        hash := transform(hash, block[..]);
        rest := rest[64..];
      }
      Short(transform, hash, rest);
    }

    /** md5_update */
    method Update(data: seq<byte>)
      requires Valid()
      modifies this`byteCount, this`hash, this`msg, block
      ensures Valid() && msg == old(msg) + data
    {
      CountMod(|msg|);
      CountAdd(|msg|, |data|);
      FoldOn(transform, initial, msg, data);
      ghost var tail := Tail(msg);
      var used := byteCount % 64;
      var avail := 64 - used;
      byteCount := (byteCount + |data|) % TWO64;
      msg := msg + data;
      if avail > |data| {
        Short(transform, hash, tail + data);
        Copy(used, data);
        assert block[..used + |data|] == tail + data;
        return;
      }
      assert tail + data == (tail + data[..avail]) + data[avail..];
      BlockFirst(transform, hash, tail + data[..avail], data[avail..]);
      Copy(used, data[..avail]);
      assert block[..] == tail + data[..avail];
      hash := transform(hash, block[..]);
      var rest := Blocks(data[avail..]);
      Copy(0, rest);
      assert block[..|rest|] == rest;
    }

    /** The last two words of the block: the low and the high half of the number of bits */
    method LengthBytes(ghost n: nat) returns (field: seq<byte>)
      requires byteCount == n % TWO64
      ensures field == LengthField(n) && |field| == 8
    {
      LengthWords(n);
      field := LittleEndian((8 * byteCount) % TWO32, 4) + LittleEndian((byteCount / 0x2000_0000) % TWO32, 4);
    }

    /** The padding of md5_final: in the block if there is room, or in this block and the next */
    method Finish(field: seq<byte>) returns (h: H)
      requires Valid() && |field| == 8
      modifies this`hash, block
      ensures h == DigestOf(transform, initial, msg, field)
    {
      CountMod(|msg|);
      var offset := byteCount % 64;
      ghost var tail := Tail(msg);
      FoldOn(transform, initial, msg, Padding(|msg|, field));
      Copy(offset, [0x80]);
      assert block[..offset + 1] == tail + [0x80];
      var padding: int := 56 - (offset + 1);
      if padding >= 0 {
        assert tail + Padding(|msg|, field) == tail + [0x80] + Zeros(padding) + field;
        h := LastBlock(offset + 1, padding, field, tail + [0x80]);
      } else {
        Copy(offset + 1, Zeros(padding + 8));
        assert block[..] == tail + [0x80] + Zeros(padding + 8);
        TwoBlocks(tail, ZeroCount(|msg|), padding + 8, field);
        BlockFirst(transform, hash, tail + [0x80] + Zeros(padding + 8), Zeros(56) + field);
        hash := transform(hash, block[..]);
        h := LastBlock(0, 56, field, []);
        assert [] + Zeros(56) + field == Zeros(56) + field;
      }
    }

    /** Zeros and the length field complete the block */
    method LastBlock(p: nat, padding: nat, field: seq<byte>, ghost lead: seq<byte>) returns (h: H)
      requires block.Length == 64 && |field| == 8 && |lead| == p && p + padding == 56 && block[..p] == lead
      modifies block
      ensures h == Fold(transform, hash, lead + Zeros(padding) + field)
    {
      Copy(p, Zeros(padding));
      assert block[..56] == lead + Zeros(padding);
      Copy(56, field);
      assert block[..] == lead + Zeros(padding) + field;
      OneBlock(transform, hash, block[..]);
      h := transform(hash, block[..]);
    }

    /** md5_final: the state of the digest */
    method Final() returns (h: H)
      requires Valid()
      modifies this`hash, block
      ensures h == DigestOf(transform, initial, msg, LengthField(|msg|))
    {
      var field := LengthBytes(|msg|);
      h := Finish(field);
    }
  }

  /** Init, any number of updates, final: the digest depends only on the whole message. */
  method HashPieces<H>(initial: H, transform: (H, seq<byte>) -> H, pieces: seq<seq<byte>>) returns (h: H)
    ensures var m := Joined(pieces, |pieces|); h == DigestOf(transform, initial, m, LengthField(|m|))
  {
    var ctx := new Md5Ctx(initial, transform);
    for k := 0 to |pieces|
      invariant ctx.Valid() && ctx.msg == Joined(pieces, k) && fresh(ctx) && fresh(ctx.block)
    {
      ctx.Update(pieces[k]);
    }
    h := ctx.Final();
  }
}
