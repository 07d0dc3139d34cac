/** What `Encrypt` and `Decrypt` do when the input and the output are the same buffer.

    The chained modes read the input block again after writing the output block.  Where that happens the
    result is not the one of the mode; this module says what it is instead, and exactly which calls are safe. */
module InPlace {
  import opened GaloisField
  import opened Divisibility
  import opened BlockCipher
  import opened Buffers
  import opened Modes

  function Zeros(n: nat): (z: Bytes)
    ensures |z| == n
  {
    seq(n, _ => 0)
  }

  lemma XorWithItself(b: Bytes)
    ensures XorBytes(b, b) == Zeros(|b|)
  {
  }

  /** CFB combines the output block with itself, so both block and chain become zero. */
  function SharedEncryptStep(k: Schedule, mode: int, chain: Bytes, p: Bytes): (o: Output)
    requires k.WellFormed() && |chain| == |p| == k.BlockSize()
    ensures |o.data| == |o.chain| == k.BlockSize()
  {
    if mode == CFB then Output(Zeros(|p|), Zeros(|p|)) else EncryptStep(k, mode, chain, p)
  }

  /** CBC chains the plaintext block instead of the ciphertext block; CFB again cancels everything. */
  function SharedDecryptStep(k: Schedule, mode: int, chain: Bytes, c: Bytes): (o: Output)
    requires k.WellFormed() && |chain| == |c| == k.BlockSize()
    ensures |o.data| == |o.chain| == k.BlockSize()
  {
    if mode == CFB then Output(Zeros(|c|), Zeros(|c|))
    else if mode == CBC then
      var p := XorBytes(DecBlock(k, c), chain);
      Output(p, p)
    else DecryptStep(k, mode, chain, c)
  }

  function SharedEncrypt(k: Schedule, mode: int, chain: Bytes, msg: Bytes): (o: Output)
    requires Whole(k, |msg|) && |chain| == k.BlockSize()
    ensures |o.data| == |msg| && |o.chain| == k.BlockSize()
    decreases |msg|
  {
    if msg == [] then Output([], chain)
    else
      var bs := k.BlockSize();
      TailIsWhole(|msg|, bs);
      var first := SharedEncryptStep(k, mode, chain, msg[..bs]);
      var rest := SharedEncrypt(k, mode, first.chain, msg[bs..]);
      Output(first.data + rest.data, rest.chain)
  }

  function SharedDecrypt(k: Schedule, mode: int, chain: Bytes, msg: Bytes): (o: Output)
    requires Whole(k, |msg|) && |chain| == k.BlockSize()
    ensures |o.data| == |msg| && |o.chain| == k.BlockSize()
    decreases |msg|
  {
    if msg == [] then Output([], chain)
    else
      var bs := k.BlockSize();
      TailIsWhole(|msg|, bs);
      var first := SharedDecryptStep(k, mode, chain, msg[..bs]);
      var rest := SharedDecrypt(k, mode, first.chain, msg[bs..]);
      Output(first.data + rest.data, rest.chain)
  }

  lemma {:induction false} SharedEncryptSnoc(k: Schedule, mode: int, chain: Bytes, x: Bytes, p: Bytes)
    requires Whole(k, |x|) && |chain| == |p| == k.BlockSize()
    ensures Whole(k, |x + p|)
    ensures var a := SharedEncrypt(k, mode, chain, x);
            var o := SharedEncryptStep(k, mode, a.chain, p);
            SharedEncrypt(k, mode, chain, x + p) == Output(a.data + o.data, o.chain)
    decreases |x|
  {
    hide SharedEncryptStep;
    var bs := k.BlockSize();
    SumIsWhole(|x|, |p|, bs);
    TailIsWhole(|x + p|, bs);
    if x == [] {
      assert x + p == p && p[..bs] == p && p[bs..] == [];
      assert SharedEncryptStep(k, mode, chain, p).data + [] == SharedEncryptStep(k, mode, chain, p).data;
    } else {
      TailIsWhole(|x|, bs);
      assert (x + p)[..bs] == x[..bs] && (x + p)[bs..] == x[bs..] + p;
      var first := SharedEncryptStep(k, mode, chain, x[..bs]);
      SharedEncryptSnoc(k, mode, first.chain, x[bs..], p);
      var rest := SharedEncrypt(k, mode, first.chain, x[bs..]);
      var last := SharedEncryptStep(k, mode, rest.chain, p);
      assert first.data + (rest.data + last.data) == (first.data + rest.data) + last.data;
    }
  }

  lemma {:induction false} SharedDecryptSnoc(k: Schedule, mode: int, chain: Bytes, x: Bytes, p: Bytes)
    requires Whole(k, |x|) && |chain| == |p| == k.BlockSize()
    ensures Whole(k, |x + p|)
    ensures var a := SharedDecrypt(k, mode, chain, x);
            var o := SharedDecryptStep(k, mode, a.chain, p);
            SharedDecrypt(k, mode, chain, x + p) == Output(a.data + o.data, o.chain)
    decreases |x|
  {
    hide SharedDecryptStep;
    var bs := k.BlockSize();
    SumIsWhole(|x|, |p|, bs);
    TailIsWhole(|x + p|, bs);
    if x == [] {
      assert x + p == p && p[..bs] == p && p[bs..] == [];
      assert SharedDecryptStep(k, mode, chain, p).data + [] == SharedDecryptStep(k, mode, chain, p).data;
    } else {
      TailIsWhole(|x|, bs);
      assert (x + p)[..bs] == x[..bs] && (x + p)[bs..] == x[bs..] + p;
      var first := SharedDecryptStep(k, mode, chain, x[..bs]);
      SharedDecryptSnoc(k, mode, first.chain, x[bs..], p);
      var rest := SharedDecrypt(k, mode, first.chain, x[bs..]);
      var last := SharedDecryptStep(k, mode, rest.chain, p);
      assert first.data + (rest.data + last.data) == (first.data + rest.data) + last.data;
    }
  }

  // ---------------------------------------------------------------- exactly which calls are safe

  /** Sharing the buffer is safe for encryption in this mode: every call on it does what the mode says. */
  ghost predicate SharedEncryptSafe(k: Schedule, mode: int) {
    forall chain: Bytes, msg: Bytes | LegalMessage(k, |msg|) && |chain| == k.BlockSize() ::
      SharedEncrypt(k, mode, chain, msg) == Encrypt(k, mode, chain, msg)
  }

  ghost predicate SharedDecryptSafe(k: Schedule, mode: int) {
    forall chain: Bytes, msg: Bytes | LegalMessage(k, |msg|) && |chain| == k.BlockSize() ::
      SharedDecrypt(k, mode, chain, msg) == Decrypt(k, mode, chain, msg)
  }

  lemma {:induction false} SharedEncryptAgrees(k: Schedule, mode: int, chain: Bytes, msg: Bytes)
    requires Whole(k, |msg|) && |chain| == k.BlockSize() && mode != CFB
    ensures SharedEncrypt(k, mode, chain, msg) == Encrypt(k, mode, chain, msg)
    decreases |msg|
  {
    hide EncryptStep;
    if msg != [] {
      var bs := k.BlockSize();
      TailIsWhole(|msg|, bs);
      SharedEncryptAgrees(k, mode, EncryptStep(k, mode, chain, msg[..bs]).chain, msg[bs..]);
    }
  }

  lemma {:induction false} SharedDecryptAgrees(k: Schedule, mode: int, chain: Bytes, msg: Bytes)
    requires Whole(k, |msg|) && |chain| == k.BlockSize() && mode != CBC && mode != CFB
    ensures SharedDecrypt(k, mode, chain, msg) == Decrypt(k, mode, chain, msg)
    decreases |msg|
  {
    hide DecryptStep;
    if msg != [] {
      var bs := k.BlockSize();
      TailIsWhole(|msg|, bs);
      SharedDecryptAgrees(k, mode, DecryptStep(k, mode, chain, msg[..bs]).chain, msg[bs..]);
    }
  }

  lemma OneBlock(k: Schedule, mode: int, chain: Bytes, b: Bytes)
    requires k.WellFormed() && |chain| == |b| == k.BlockSize()
    ensures LegalMessage(k, |b|)
    ensures Encrypt(k, mode, chain, b) == EncryptStep(k, mode, chain, b)
    ensures Decrypt(k, mode, chain, b) == DecryptStep(k, mode, chain, b)
    ensures SharedEncrypt(k, mode, chain, b) == SharedEncryptStep(k, mode, chain, b)
    ensures SharedDecrypt(k, mode, chain, b) == SharedDecryptStep(k, mode, chain, b)
  {
    hide EncryptStep, DecryptStep, SharedEncryptStep, SharedDecryptStep;
    assert b[..|b|] == b && b[|b|..] == [];
    var e, d := EncryptStep(k, mode, chain, b), DecryptStep(k, mode, chain, b);
    var f, g := SharedEncryptStep(k, mode, chain, b), SharedDecryptStep(k, mode, chain, b);
    assert e.data + [] == e.data && d.data + [] == d.data && f.data + [] == f.data && g.data + [] == g.data;
  }

  /** A block that differs from a given one in its first byte. */
  function Other(b: Bytes): (r: Bytes)
    requires |b| > 0
    ensures |r| == |b| && r != b
  {
    var r := b[0 := Add(b[0], 1)];
    AddOneDiffers(b[0]);
    assert r[0] != b[0];
    r
  }

  lemma AddOneDiffers(a: bv8)
    ensures Add(a, 1) != a
  {
  }

  /** Encrypting over the plaintext is safe in every mode but CFB. */
  lemma SharedEncryptSafeIff(k: Schedule, mode: int)
    requires k.WellFormed()
    ensures SharedEncryptSafe(k, mode) <==> mode != 2
  {
    hide EncBlock, XorBytes, Other;
    if mode == CFB {
      var chain := Zeros(k.BlockSize());
      var msg := XorBytes(EncBlock(k, chain), Other(Zeros(k.BlockSize())));
      OneBlock(k, mode, chain, msg);
      XorBytesCancels(EncBlock(k, chain), Other(Zeros(k.BlockSize())));
      assert Encrypt(k, mode, chain, msg).data == Other(Zeros(k.BlockSize()));
    } else {
      forall chain: Bytes, msg: Bytes | LegalMessage(k, |msg|) && |chain| == k.BlockSize()
        ensures SharedEncrypt(k, mode, chain, msg) == Encrypt(k, mode, chain, msg)
      {
        SharedEncryptAgrees(k, mode, chain, msg);
      }
    }
  }

  /** Decrypting over the ciphertext is safe in ECB only. */
  lemma SharedDecryptSafeIff(k: Schedule, mode: int)
    requires k.WellFormed()
    ensures SharedDecryptSafe(k, mode) <==> mode != 1 && mode != 2
  {
    hide EncBlock, DecBlock, XorBytes, Other;
    var zero := Zeros(k.BlockSize());
    if mode == CFB {
      var msg := XorBytes(EncBlock(k, zero), Other(zero));
      OneBlock(k, mode, zero, msg);
      XorBytesCancels(EncBlock(k, zero), Other(zero));
      assert Decrypt(k, mode, zero, msg).data == Other(zero);
    } else if mode == CBC {
      // The chain that is left should be the ciphertext block and is the plaintext block.
      var chain := XorBytes(DecBlock(k, zero), Other(zero));
      OneBlock(k, mode, chain, zero);
      XorBytesCancels(DecBlock(k, zero), Other(zero));
      assert SharedDecrypt(k, mode, chain, zero).chain == Other(zero);
      assert Decrypt(k, mode, chain, zero).chain == zero;
    } else {
      forall chain: Bytes, msg: Bytes | LegalMessage(k, |msg|) && |chain| == k.BlockSize()
        ensures SharedDecrypt(k, mode, chain, msg) == Decrypt(k, mode, chain, msg)
      {
        SharedDecryptAgrees(k, mode, chain, msg);
      }
    }
  }

  /** The step that a call takes, on one buffer or on two. */
  function EncryptStepOf(k: Schedule, shared: bool, mode: int, chain: Bytes, b: Bytes): (o: Output)
    requires k.WellFormed() && |chain| == |b| == k.BlockSize()
    ensures |o.data| == |o.chain| == k.BlockSize()
  {
    if shared then SharedEncryptStep(k, mode, chain, b) else EncryptStep(k, mode, chain, b)
  }

  function EncryptOf(k: Schedule, shared: bool, mode: int, chain: Bytes, msg: Bytes): (o: Output)
    requires Whole(k, |msg|) && |chain| == k.BlockSize()
    ensures |o.data| == |msg| && |o.chain| == k.BlockSize()
  {
    if shared then SharedEncrypt(k, mode, chain, msg) else Encrypt(k, mode, chain, msg)
  }

  lemma EncryptOfSnoc(k: Schedule, shared: bool, mode: int, chain: Bytes, x: Bytes, p: Bytes)
    requires Whole(k, |x|) && |chain| == |p| == k.BlockSize()
    ensures Whole(k, |x + p|)
    ensures var a := EncryptOf(k, shared, mode, chain, x);
            var o := EncryptStepOf(k, shared, mode, a.chain, p);
            EncryptOf(k, shared, mode, chain, x + p) == Output(a.data + o.data, o.chain)
  {
    hide EncryptStep, SharedEncryptStep;
    if shared {
      SharedEncryptSnoc(k, mode, chain, x, p);
    } else {
      EncryptSnoc(k, mode, chain, x, p);
    }
  }

  /** The step that a call takes, on one buffer or on two. */
  function DecryptStepOf(k: Schedule, shared: bool, mode: int, chain: Bytes, b: Bytes): (o: Output)
    requires k.WellFormed() && |chain| == |b| == k.BlockSize()
    ensures |o.data| == |o.chain| == k.BlockSize()
  {
    if shared then SharedDecryptStep(k, mode, chain, b) else DecryptStep(k, mode, chain, b)
  }

  function DecryptOf(k: Schedule, shared: bool, mode: int, chain: Bytes, msg: Bytes): (o: Output)
    requires Whole(k, |msg|) && |chain| == k.BlockSize()
    ensures |o.data| == |msg| && |o.chain| == k.BlockSize()
  {
    if shared then SharedDecrypt(k, mode, chain, msg) else Decrypt(k, mode, chain, msg)
  }

  lemma DecryptOfSnoc(k: Schedule, shared: bool, mode: int, chain: Bytes, x: Bytes, p: Bytes)
    requires Whole(k, |x|) && |chain| == |p| == k.BlockSize()
    ensures Whole(k, |x + p|)
    ensures var a := DecryptOf(k, shared, mode, chain, x);
            var o := DecryptStepOf(k, shared, mode, a.chain, p);
            DecryptOf(k, shared, mode, chain, x + p) == Output(a.data + o.data, o.chain)
  {
    hide DecryptStep, SharedDecryptStep;
    if shared {
      SharedDecryptSnoc(k, mode, chain, x, p);
    } else {
      DecryptSnoc(k, mode, chain, x, p);
    }
  }

  /** How far a call has come after `at` bytes: the output so far stands in front of what was there before. */
  ghost predicate EncryptProgress(k: Schedule, shared: bool, mode: int, chain: Bytes, msg: Bytes, was: Bytes,
                            at: nat, result: Bytes, now: Bytes)
    requires k.WellFormed() && |chain| == k.BlockSize()
  {
    && at <= |msg| <= |was| && Whole(k, at)
    && var o := EncryptOf(k, shared, mode, chain, msg[..at]);
       result == o.data + was[at..] && now == o.chain
  }

  lemma EncryptProgresses(k: Schedule, shared: bool, mode: int, chain: Bytes, msg: Bytes, was: Bytes,
                    at: nat, result: Bytes, now: Bytes)
    requires k.WellFormed() && |chain| == k.BlockSize() && at + k.BlockSize() <= |msg|
    requires EncryptProgress(k, shared, mode, chain, msg, was, at, result, now)
    ensures |result| == |was| && |now| == k.BlockSize()
    ensures var o := EncryptStepOf(k, shared, mode, now, msg[at..at + k.BlockSize()]);
            EncryptProgress(k, shared, mode, chain, msg, was, at + k.BlockSize(), Splice(result, at, o.data), o.chain)
  {
    hide EncryptStepOf, EncryptOf;
    var bs := k.BlockSize();
    var x, p := msg[..at], msg[at..at + bs];
    EncryptOfSnoc(k, shared, mode, chain, x, p);
    assert x + p == msg[..at + bs];
    var a := EncryptOf(k, shared, mode, chain, x);
    var o := EncryptStepOf(k, shared, mode, a.chain, p);
    assert Splice(result, at, o.data) == (a.data + o.data) + was[at + bs..];
  }

  /** How far a call has come after `at` bytes: the output so far stands in front of what was there before. */
  ghost predicate DecryptProgress(k: Schedule, shared: bool, mode: int, chain: Bytes, msg: Bytes, was: Bytes,
                            at: nat, result: Bytes, now: Bytes)
    requires k.WellFormed() && |chain| == k.BlockSize()
  {
    && at <= |msg| <= |was| && Whole(k, at)
    && var o := DecryptOf(k, shared, mode, chain, msg[..at]);
       result == o.data + was[at..] && now == o.chain
  }

  lemma DecryptProgresses(k: Schedule, shared: bool, mode: int, chain: Bytes, msg: Bytes, was: Bytes,
                    at: nat, result: Bytes, now: Bytes)
    requires k.WellFormed() && |chain| == k.BlockSize() && at + k.BlockSize() <= |msg|
    requires DecryptProgress(k, shared, mode, chain, msg, was, at, result, now)
    ensures |result| == |was| && |now| == k.BlockSize()
    ensures var o := DecryptStepOf(k, shared, mode, now, msg[at..at + k.BlockSize()]);
            DecryptProgress(k, shared, mode, chain, msg, was, at + k.BlockSize(), Splice(result, at, o.data), o.chain)
  {
    hide DecryptStepOf, DecryptOf;
    var bs := k.BlockSize();
    var x, p := msg[..at], msg[at..at + bs];
    DecryptOfSnoc(k, shared, mode, chain, x, p);
    assert x + p == msg[..at + bs];
    var a := DecryptOf(k, shared, mode, chain, x);
    var o := DecryptStepOf(k, shared, mode, a.chain, p);
    assert Splice(result, at, o.data) == (a.data + o.data) + was[at + bs..];
  }

  lemma EncryptBegins(k: Schedule, shared: bool, mode: int, chain: Bytes, msg: Bytes, was: Bytes)
    requires k.WellFormed() && |chain| == k.BlockSize() && |msg| <= |was|
    ensures EncryptProgress(k, shared, mode, chain, msg, was, 0, was, chain)
  {
  }

  lemma EncryptEnds(k: Schedule, shared: bool, mode: int, chain: Bytes, msg: Bytes, was: Bytes, result: Bytes, now: Bytes)
    requires k.WellFormed() && |chain| == k.BlockSize()
    requires EncryptProgress(k, shared, mode, chain, msg, was, |msg|, result, now)
    ensures Whole(k, |msg|) && |msg| <= |was|
    ensures var o := EncryptOf(k, shared, mode, chain, msg);
            result == o.data + was[|msg|..] && now == o.chain
  {
    assert msg[..|msg|] == msg;
  }

  lemma DecryptBegins(k: Schedule, shared: bool, mode: int, chain: Bytes, msg: Bytes, was: Bytes)
    requires k.WellFormed() && |chain| == k.BlockSize() && |msg| <= |was|
    ensures DecryptProgress(k, shared, mode, chain, msg, was, 0, was, chain)
  {
  }

  lemma DecryptEnds(k: Schedule, shared: bool, mode: int, chain: Bytes, msg: Bytes, was: Bytes, result: Bytes, now: Bytes)
    requires k.WellFormed() && |chain| == k.BlockSize()
    requires DecryptProgress(k, shared, mode, chain, msg, was, |msg|, result, now)
    ensures Whole(k, |msg|) && |msg| <= |was|
    ensures var o := DecryptOf(k, shared, mode, chain, msg);
            result == o.data + was[|msg|..] && now == o.chain
  {
    assert msg[..|msg|] == msg;
  }
}
