/** Two cipher objects at the two ends of a channel. */
module Exchange {
  import opened BlockCipher
  import opened Modes
  import opened InPlace
  import opened Rijndael

  /** Two objects that share no memory which a call changes. */
  ghost predicate Apart(s: Rijndael, r: Rijndael) {
    && s != r
    && s.Ke != r.Ke && s.Ke != r.Kd && s.Kd != r.Ke && s.Kd != r.Kd
    && s.chain != r.chain && s.chain != r.chain0 && s.chain0 != r.chain && s.chain0 != r.chain0
    && s.t != r.t && s.t != r.a && s.a != r.t && s.a != r.a
    && s.tk != r.t && s.tk != r.a && s.tk != r.tk && s.t != r.tk && s.a != r.tk
  }

  /** The two ends hold the same key, the same chain, and the same chain to go back to. */
  ghost predicate InStep(s: Rijndael, r: Rijndael)
    reads s, s.Ke, s.Kd, s.chain, s.chain0, r, r.Ke, r.Kd, r.chain, r.chain0
  {
    && s.Valid() && r.Valid() && s.keyInit && r.keyInit
    && s.sched == r.sched && s.chain[..s.blockSize] == r.chain[..r.blockSize]
    && s.chain0[..s.blockSize] == r.chain0[..r.blockSize]
  }

  /** Two objects that are given the same key and chain are in step. */
  method Agree(s: Rijndael, r: Rijndael, key: array<bv8>, chain: array<bv8>, keyLen: int, size: int) returns (ok: bool)
    requires Apart(s, r) && s.Shape() && r.Shape()
    requires LegalLength(keyLen) && LegalLength(size) ==> keyLen <= key.Length && size <= chain.Length
    requires s.Foreign(key) && s.Foreign(chain) && r.Foreign(key) && r.Foreign(chain)
    modifies s, s.Ke, s.Kd, s.chain0, s.chain, s.tk, r, r.Ke, r.Kd, r.chain0, r.chain, r.tk
    ensures ok == (LegalLength(keyLen) && LegalLength(size))
    ensures ok ==> InStep(s, r) && s.sched == ExpandKey(old(key[..keyLen]), size)
  {
    hide Rijndael.Valid, ExpandKey;
    var one := s.MakeKey(key, chain, keyLen, size);
    var two := r.MakeKey(key, chain, keyLen, size);
    return one == Done && two == Done;
  }

  /** Both ends go back to their first chain. */
  method Reset(s: Rijndael, r: Rijndael)
    requires Apart(s, r) && InStep(s, r)
    modifies s.chain, r.chain
    ensures InStep(s, r) && s.sched == old(s.sched)
  {
    hide Rijndael.Valid;
    s.ResetChain();
    r.ResetChain();
  }

  /** What one end makes of a message, the other end takes apart again, and both go on from the same chain. */
  lemma Arrives(k: Schedule, mode: int, c0: seq<bv8>, msg: seq<bv8>)
    requires Reversible(k, mode) && LegalMessage(k, |msg|) && |c0| == k.BlockSize()
    ensures var o := EncryptOf(k, false, mode, c0, msg);
            |o.data| == |msg| && DecryptOf(k, false, mode, c0, o.data) == Output(msg, o.chain)
  {
    hide Modes.Encrypt, Modes.Decrypt;
    MessageRoundTrip(k, mode, c0, msg);
  }

  /** One message through the channel: it arrives, and the two ends are in step again. */
  method Transfer(s: Rijndael, r: Rijndael, plain: array<bv8>, wire: array<bv8>, read: array<bv8>, n: nat, mode: int)
    requires Apart(s, r) && InStep(s, r) && LegalMessage(s.sched, n)
    requires n <= plain.Length && n <= wire.Length && n <= read.Length
    requires plain != wire && wire != read && plain != read
    requires s.Foreign(plain) && s.Foreign(wire) && s.Foreign(read) && r.Foreign(plain) && r.Foreign(wire) && r.Foreign(read)
    modifies wire, read, s.chain, s.t, s.a, r.chain, r.t, r.a
    ensures InStep(s, r) && s.sched == old(s.sched)
    ensures read[..n] == old(plain[..n])
  {
    hide EncryptOf, DecryptOf, Rijndael.Valid;
    ghost var k, c0, msg := s.sched, s.chain[..s.blockSize], plain[..n];
    Arrives(k, mode, c0, msg);
    var sent := s.Encrypt(plain, wire, n, mode);
    assert wire[..n] == EncryptOf(k, false, mode, c0, msg).data;
    var got := r.Decrypt(wire, read, n, mode);
  }
}
