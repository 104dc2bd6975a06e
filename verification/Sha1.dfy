// sha1.c: the buffering around the transform.
module Sha1 {
  import opened Digest

  /** The length field of SHA-1: the number of bits, most significant byte first (section 5.1.1 of FIPS 180-2). */
  function LengthField(n: nat): (f: seq<byte>)
    ensures |f| == 8
  {
    BigEndian(Bits(n), 8)
  }

  class Sha1Ctx<H> {
    var count: nat
    var state: H
    const buffer: array<byte>
    const initial: H
    const transform: (H, seq<byte>) -> H
    ghost var msg: seq<byte>

    /** The context has taken in msg: whole blocks are in the state, the rest is in the buffer. */
    ghost predicate Valid()
      reads this, buffer
    {
      && buffer.Length == 64 && count == |msg| % TWO64
      && state == Fold(transform, initial, msg) && buffer[..|msg| % 64] == Tail(msg)
    }

    /** sha1_init */
    constructor (initial: H, transform: (H, seq<byte>) -> H)
      ensures Valid() && msg == [] && fresh(buffer) && this.initial == initial && this.transform == transform
    {
      this.initial, this.transform := initial, transform;
      count, state, msg := 0, initial, [];
      buffer := new byte[64];
    }

    /** memcpy into the buffer */
    method Fill(at: nat, data: seq<byte>)
      requires at + |data| <= buffer.Length
      modifies buffer
      ensures buffer[..] == old(buffer[..at]) + data + old(buffer[at + |data|..])
    {
      for k := 0 to |data|
        invariant buffer[..at] == old(buffer[..at]) && buffer[at..at + k] == data[..k]
        invariant buffer[at + k..] == old(buffer[at + k..])
      {
        ghost var before := buffer[..];
        buffer[at + k] := data[k];
        assert buffer[..] == before[at + k := data[k]];
        assert buffer[at..at + k + 1] == before[at..at + k] + [data[k]];
      }
    }

    /** The blocks sha1_update can complete: first the one begun in the buffer, then those in the data */
    method Absorb(partial: nat, data: seq<byte>, ghost tail: seq<byte>) returns (done: int)
      requires buffer.Length == 64 && |tail| == partial < 64 && buffer[..partial] == tail && partial + |data| >= 64
      modifies this`state, buffer
      ensures 0 <= done <= |data| && state == Fold(transform, old(state), tail + data)
      ensures data[done..] == Tail(tail + data)
    {
      done := 0;
      if partial > 0 {
        done := 0 - partial;
        Fill(partial, data[..done + 64]);
        assert buffer[..] == tail + data[..done + 64];
        state := transform(state, buffer[..]);
      } else {
        assert tail + data[..64] == data[..64];
        state := transform(state, data[..64]);
      }
      done := done + 64;
      assert tail + data == (tail + data[..done]) + data[done..];
      BlockFirst(transform, old(state), tail + data[..done], data[done..]);
      while done + 63 < |data|
        invariant 0 <= done <= |data|
        invariant Fold(transform, state, data[done..]) == Fold(transform, old(state), tail + data)
        invariant Tail(data[done..]) == Tail(tail + data)
        decreases |data| - done
      {
        assert data[done..] == data[done..done + 64] + data[done + 64..];
        BlockFirst(transform, state, data[done..done + 64], data[done + 64..]);
        state := transform(state, data[done..done + 64]);
        done := done + 64;
      }
      Short(transform, state, data[done..]);
    }

    /** What does not fill a block goes behind what the buffer holds. */
    method Keep(at: nat, data: seq<byte>, ghost tail: seq<byte>)
      requires at + |data| <= buffer.Length && buffer[..at] == tail
      modifies buffer
      ensures buffer[..at + |data|] == tail + data
    {
      Fill(at, data);
    }

    /** sha1_update */
    method Update(data: seq<byte>)
      requires Valid()
      modifies this`count, this`state, this`msg, buffer
      ensures Valid() && msg == old(msg) + data
    {
      CountMod(|msg|);
      CountAdd(|msg|, |data|);
      FoldOn(transform, initial, msg, data);
      ghost var tail := Tail(msg);
      var partial := count % 64;
      count := (count + |data|) % TWO64;
      msg := msg + data;
      if partial + |data| > 63 {
        var done := Absorb(partial, data, tail);
        Keep(0, data[done..], []);
        assert [] + data[done..] == data[done..];
      } else {
        Short(transform, state, tail + data);
        Keep(partial, data, tail);
      }
    }

    /** The padding and the length field of sha1_final */
    method Finish(bits: seq<byte>)
      requires Valid() && |bits| == 8
      modifies this`count, this`state, this`msg, buffer
      ensures Valid() && msg == old(msg) + Padding(|old(msg)|, bits)
    {
      CountMod(|msg|);
      var index := count % 64;
      var padlen := if index < 56 then 56 - index else 64 + 56 - index;
      Update([0x80] + Zeros(padlen - 1));
      Update(bits);
      assert msg == old(msg) + Padding(|old(msg)|, bits);
    }

    /** sha1_final: the state of the digest */
    method Final() returns (h: H)
      requires Valid()
      modifies this`count, this`state, this`msg, buffer
      ensures h == DigestOf(transform, initial, old(msg), LengthField(|old(msg)|))
    {
      ShiftedCount(|msg|);
      Finish(BigEndian((8 * count) % TWO64, 8));
      h := state;
    }
  }

  /** Init, any number of updates, final: the digest depends only on the whole message. */
  method HashPieces<H>(initial: H, transform: (H, seq<byte>) -> H, pieces: seq<seq<byte>>) returns (h: H)
    ensures var m := Joined(pieces, |pieces|); h == DigestOf(transform, initial, m, LengthField(|m|))
  {
    var ctx := new Sha1Ctx(initial, transform);
    for k := 0 to |pieces|
      invariant ctx.Valid() && ctx.msg == Joined(pieces, k) && fresh(ctx) && fresh(ctx.buffer)
    {
      ctx.Update(pieces[k]);
    }
    h := ctx.Final();
  }
}
