// AES in cipher block chaining mode: the two results put together.
module AesCbc {
  import opened Gf256
  import opened AesSpec
  import Aes
  import Cbc

  lemma {:induction false} AddKeyComm(a: Block, b: Block)
    ensures AddKey(a, b) == AddKey(b, a)
  {
    Aes.XorColComm(a.c0, b.c0);
    Aes.XorColComm(a.c1, b.c1);
    Aes.XorColComm(a.c2, b.c2);
    Aes.XorColComm(a.c3, b.c3);
  }

  lemma {:induction false} AddKeyLaws()
    ensures Cbc.XorLaws(AddKey)
  {
    forall a, b ensures AddKey(a, b) == AddKey(b, a) { AddKeyComm(a, b); }
    forall a, b ensures AddKey(AddKey(a, b), b) == a { AddKeyTwice(a, b); }
  }

  /** For every key and every chaining value, deciphering a message undoes enciphering it. */
  lemma {:induction false} CbcRoundTrip(key: seq<Byte>, iv: Block, message: seq<Block>, enc: Block -> Block,
                                        dec: Block -> Block)
    requires Aes.GoodKey(key)
    requires forall b :: enc(b) == Cipher(Aes.RoundKeys(key), b)
    requires forall b :: dec(b) == EqInvCipher(Aes.DecKeys(UnmixCol, Aes.RoundKeys(key)), b)
    ensures Cbc.Dec(dec, AddKey, iv, Cbc.Enc(enc, AddKey, iv, message)) == message
  {
    AddKeyLaws();
    forall b ensures dec(enc(b)) == b { Aes.RoundTrip(key, b); }
    Cbc.RoundTrip(enc, dec, AddKey, iv, message);
  }
}
