/** The ECB, CBC and CFB modes (sections 6.1 to 6.3 of NIST SP 800-38A, CFB with segments of a whole block) as
    functions from a chain and a message to the output and the chain that is left. */
module Modes {
  import opened GaloisField
  import opened Divisibility
  import opened BlockCipher

  const CBC := 1
  const CFB := 2

  function XorBytes(a: Bytes, b: Bytes): (r: Bytes)
    requires |a| == |b|
    ensures |r| == |a|
  {
    seq(|a|, i requires 0 <= i < |a| => Add(a[i], b[i]))
  }

  datatype Output = Output(data: Bytes, chain: Bytes)

  /** A message the program accepts: not empty and a whole number of blocks. */
  predicate LegalMessage(k: Schedule, n: nat) {
    n > 0 && Whole(k, n)
  }

  predicate Whole(k: Schedule, n: nat) {
    k.WellFormed() && n % k.BlockSize() == 0
  }

  /** One block in, one block out. Any mode other than CBC and CFB is ECB. */
  function EncryptStep(k: Schedule, mode: int, chain: Bytes, p: Bytes): (o: Output)
    requires k.WellFormed() && |chain| == |p| == k.BlockSize()
    ensures |o.data| == |o.chain| == k.BlockSize()
  {
    if mode == CBC then
      var c := EncBlock(k, XorBytes(chain, p));
      Output(c, c)
    else if mode == CFB then
      var c := XorBytes(EncBlock(k, chain), p);
      Output(c, c)
    else
      Output(EncBlock(k, p), chain)
  }

  function DecryptStep(k: Schedule, mode: int, chain: Bytes, c: Bytes): (o: Output)
    requires k.WellFormed() && |chain| == |c| == k.BlockSize()
    ensures |o.data| == |o.chain| == k.BlockSize()
  {
    if mode == CBC then
      Output(XorBytes(DecBlock(k, c), chain), c)
    else if mode == CFB then
      Output(XorBytes(EncBlock(k, chain), c), c)
    else
      Output(DecBlock(k, c), chain)
  }

  function Encrypt(k: Schedule, mode: int, chain: Bytes, msg: Bytes): (o: Output)
    requires Whole(k, |msg|) && |chain| == k.BlockSize()
    ensures |o.data| == |msg| && |o.chain| == k.BlockSize()
    decreases |msg|
  {
    if msg == [] then Output([], chain)
    else
      var bs := k.BlockSize();
      TailIsWhole(|msg|, bs);
      var first := EncryptStep(k, mode, chain, msg[..bs]);
      var rest := Encrypt(k, mode, first.chain, msg[bs..]);
      Output(first.data + rest.data, rest.chain)
  }

  function Decrypt(k: Schedule, mode: int, chain: Bytes, msg: Bytes): (o: Output)
    requires Whole(k, |msg|) && |chain| == k.BlockSize()
    ensures |o.data| == |msg| && |o.chain| == k.BlockSize()
    decreases |msg|
  {
    if msg == [] then Output([], chain)
    else
      var bs := k.BlockSize();
      TailIsWhole(|msg|, bs);
      var first := DecryptStep(k, mode, chain, msg[..bs]);
      var rest := Decrypt(k, mode, first.chain, msg[bs..]);
      Output(first.data + rest.data, rest.chain)
  }

  // ---------------------------------------------------------------- round trips

  lemma XorBytesCancels(a: Bytes, b: Bytes)
    requires |a| == |b|
    ensures XorBytes(XorBytes(a, b), b) == a
    ensures XorBytes(a, XorBytes(a, b)) == b
  {
  }

  lemma XorBytesCommutes(a: Bytes, b: Bytes)
    requires |a| == |b|
    ensures XorBytes(a, b) == XorBytes(b, a)
  {
  }

  /** What the mode needs of the schedule: CFB never runs the block function backwards. */
  predicate Reversible(k: Schedule, mode: int) {
    k.WellFormed() && (mode == CFB || k.Matched())
  }

  lemma StepRoundTrip(k: Schedule, mode: int, chain: Bytes, b: Bytes)
    requires Reversible(k, mode) && |chain| == |b| == k.BlockSize()
    ensures DecryptStep(k, mode, chain, EncryptStep(k, mode, chain, b).data) == Output(b, EncryptStep(k, mode, chain, b).chain)
    ensures EncryptStep(k, mode, chain, DecryptStep(k, mode, chain, b).data) == Output(b, DecryptStep(k, mode, chain, b).chain)
  {
    hide EncBlock, DecBlock, XorBytes;
    if mode == CBC {
      BlockFunctionsInvert(k, XorBytes(chain, b));
      BlockFunctionsInvert(k, b);
      XorBytesCancels(chain, b);
      XorBytesCommutes(XorBytes(chain, b), chain);
      XorBytesCancels(DecBlock(k, b), chain);
      XorBytesCommutes(XorBytes(DecBlock(k, b), chain), chain);
    } else if mode == CFB {
      XorBytesCancels(EncBlock(k, chain), b);
    } else {
      BlockFunctionsInvert(k, b);
    }
  }

  /** Decrypting from the same chain recovers the message and leaves both sides with the same chain. */
  lemma {:induction false} MessageRoundTrip(k: Schedule, mode: int, chain: Bytes, msg: Bytes)
    requires Reversible(k, mode) && Whole(k, |msg|) && |chain| == k.BlockSize()
    ensures Decrypt(k, mode, chain, Encrypt(k, mode, chain, msg).data) == Output(msg, Encrypt(k, mode, chain, msg).chain)
    decreases |msg|
  {
    hide EncryptStep, DecryptStep;
    if msg != [] {
      var bs := k.BlockSize();
      TailIsWhole(|msg|, bs);
      var head, tail := msg[..bs], msg[bs..];
      var first := EncryptStep(k, mode, chain, head);
      var rest := Encrypt(k, mode, first.chain, tail);
      var sent := first.data + rest.data;
      assert sent[..bs] == first.data && sent[bs..] == rest.data;
      StepRoundTrip(k, mode, chain, head);
      MessageRoundTrip(k, mode, first.chain, tail);
      assert msg == head + tail;
    }
  }

  /** Every ciphertext is the encryption of its decryption. */
  lemma {:induction false} CiphertextRoundTrip(k: Schedule, mode: int, chain: Bytes, msg: Bytes)
    requires Reversible(k, mode) && Whole(k, |msg|) && |chain| == k.BlockSize()
    ensures Encrypt(k, mode, chain, Decrypt(k, mode, chain, msg).data) == Output(msg, Decrypt(k, mode, chain, msg).chain)
    decreases |msg|
  {
    hide EncryptStep, DecryptStep;
    if msg != [] {
      var bs := k.BlockSize();
      TailIsWhole(|msg|, bs);
      var head, tail := msg[..bs], msg[bs..];
      var first := DecryptStep(k, mode, chain, head);
      var rest := Decrypt(k, mode, first.chain, tail);
      var read := first.data + rest.data;
      assert read[..bs] == first.data && read[bs..] == rest.data;
      StepRoundTrip(k, mode, chain, head);
      CiphertextRoundTrip(k, mode, first.chain, tail);
      assert msg == head + tail;
    }
  }

  // ---------------------------------------------------------------- streaming

  lemma WholeSum(k: Schedule, m: nat, n: nat)
    requires Whole(k, m) && Whole(k, n)
    ensures Whole(k, m + n)
  {
  }

  /** Two calls with the carried chain do what one call on the joined message does. */
  lemma {:induction false} EncryptStreams(k: Schedule, mode: int, chain: Bytes, x: Bytes, y: Bytes)
    requires Whole(k, |x|) && Whole(k, |y|) && |chain| == k.BlockSize()
    ensures Whole(k, |x + y|)
    ensures var a := Encrypt(k, mode, chain, x);
            var b := Encrypt(k, mode, a.chain, y);
            Encrypt(k, mode, chain, x + y) == Output(a.data + b.data, b.chain)
    decreases |x|
  {
    hide EncryptStep;
    WholeSum(k, |x|, |y|);
    if x == [] {
      assert x + y == y;
    } else {
      var bs := k.BlockSize();
      TailIsWhole(|x|, bs);
      TailIsWhole(|x + y|, bs);
      assert (x + y)[..bs] == x[..bs] && (x + y)[bs..] == x[bs..] + y;
      var first := EncryptStep(k, mode, chain, x[..bs]);
      EncryptStreams(k, mode, first.chain, x[bs..], y);
      var rest := Encrypt(k, mode, first.chain, x[bs..]);
      var last := Encrypt(k, mode, rest.chain, y);
      assert first.data + (rest.data + last.data) == (first.data + rest.data) + last.data;
    }
  }

  lemma {:induction false} DecryptStreams(k: Schedule, mode: int, chain: Bytes, x: Bytes, y: Bytes)
    requires Whole(k, |x|) && Whole(k, |y|) && |chain| == k.BlockSize()
    ensures Whole(k, |x + y|)
    ensures var a := Decrypt(k, mode, chain, x);
            var b := Decrypt(k, mode, a.chain, y);
            Decrypt(k, mode, chain, x + y) == Output(a.data + b.data, b.chain)
    decreases |x|
  {
    hide DecryptStep;
    WholeSum(k, |x|, |y|);
    if x == [] {
      assert x + y == y;
    } else {
      var bs := k.BlockSize();
      TailIsWhole(|x|, bs);
      TailIsWhole(|x + y|, bs);
      assert (x + y)[..bs] == x[..bs] && (x + y)[bs..] == x[bs..] + y;
      var first := DecryptStep(k, mode, chain, x[..bs]);
      DecryptStreams(k, mode, first.chain, x[bs..], y);
      var rest := Decrypt(k, mode, first.chain, x[bs..]);
      var last := Decrypt(k, mode, rest.chain, y);
      assert first.data + (rest.data + last.data) == (first.data + rest.data) + last.data;
    }
  }

  /** One more block at the end of a message. */
  lemma EncryptSnoc(k: Schedule, mode: int, chain: Bytes, x: Bytes, p: Bytes)
    requires Whole(k, |x|) && |chain| == |p| == k.BlockSize()
    ensures Whole(k, |x + p|)
    ensures var a := Encrypt(k, mode, chain, x);
            var o := EncryptStep(k, mode, a.chain, p);
            Encrypt(k, mode, chain, x + p) == Output(a.data + o.data, o.chain)
  {
    hide EncryptStep;
    EncryptStreams(k, mode, chain, x, p);
    var a := Encrypt(k, mode, chain, x);
    assert p[..|p|] == p && p[|p|..] == [];
    assert Encrypt(k, mode, a.chain, p).data == EncryptStep(k, mode, a.chain, p).data;
  }

  lemma DecryptSnoc(k: Schedule, mode: int, chain: Bytes, x: Bytes, c: Bytes)
    requires Whole(k, |x|) && |chain| == |c| == k.BlockSize()
    ensures Whole(k, |x + c|)
    ensures var a := Decrypt(k, mode, chain, x);
            var o := DecryptStep(k, mode, a.chain, c);
            Decrypt(k, mode, chain, x + c) == Output(a.data + o.data, o.chain)
  {
    hide DecryptStep;
    DecryptStreams(k, mode, chain, x, c);
    var a := Decrypt(k, mode, chain, x);
    assert c[..|c|] == c && c[|c|..] == [];
    assert Decrypt(k, mode, a.chain, c).data == DecryptStep(k, mode, a.chain, c).data;
  }

  // ---------------------------------------------------------------- the block formulas of the standard

  /** Block `j` of a message. */
  function Block(bs: nat, b: Bytes, j: nat): (r: Bytes)
    requires bs > 0 && Through(bs, j) <= |b|
    ensures |r| == bs
  {
    b[j * bs..Through(bs, j)]
  }

  /** The end of block `j`. */
  function Through(bs: nat, j: nat): (n: nat)
    ensures n == (j + 1) * bs && j * bs + bs == n
  {
    j * bs + bs
  }

  /** The block chained into block `j`: the one before it in the ciphertext, or the chain at the start. */
  function Previous(bs: nat, chain: Bytes, cipher: Bytes, j: nat): (r: Bytes)
    requires bs > 0 && |chain| == bs && Through(bs, j) <= |cipher|
    ensures |r| == bs
  {
    if j == 0 then chain else Block(bs, cipher, j - 1)
  }

  /** Sections 6.1 to 6.3: each ciphertext block in terms of its plaintext block and the ciphertext block before. */
  lemma {:induction false} EncryptByBlocks(k: Schedule, mode: int, chain: Bytes, msg: Bytes, j: nat)
    requires Whole(k, |msg|) && |chain| == k.BlockSize() && Through(k.BlockSize(), j) <= |msg|
    ensures var bs := k.BlockSize();
            var out := Encrypt(k, mode, chain, msg).data;
            var p, prev := Block(bs, msg, j), Previous(bs, chain, out, j);
            Block(bs, out, j) ==
              if mode == CBC then EncBlock(k, XorBytes(prev, p))
              else if mode == CFB then XorBytes(EncBlock(k, prev), p)
              else EncBlock(k, p)
    decreases j
  {
    hide EncBlock, XorBytes;
    var bs := k.BlockSize();
    TailIsWhole(|msg|, bs);
    var first := EncryptStep(k, mode, chain, msg[..bs]);
    var tail := msg[bs..];
    var out := Encrypt(k, mode, chain, msg).data;
    var rest := Encrypt(k, mode, first.chain, tail).data;
    assert out[..bs] == first.data && out[bs..] == rest;
    if j == 0 {
      assert Block(bs, msg, 0) == msg[..bs];
    } else {
      EncryptByBlocks(k, mode, first.chain, tail, j - 1);
      BlockOfTail(bs, msg, j);
      BlockOfTail(bs, out, j);
      if j > 1 {
        BlockOfTail(bs, out, j - 1);
      }
    }
  }

  /** Sections 6.1 to 6.3, the other way. */
  lemma {:induction false} DecryptByBlocks(k: Schedule, mode: int, chain: Bytes, msg: Bytes, j: nat)
    requires Whole(k, |msg|) && |chain| == k.BlockSize() && Through(k.BlockSize(), j) <= |msg|
    ensures var bs := k.BlockSize();
            var out := Decrypt(k, mode, chain, msg).data;
            var c, prev := Block(bs, msg, j), Previous(bs, chain, msg, j);
            Block(bs, out, j) ==
              if mode == CBC then XorBytes(DecBlock(k, c), prev)
              else if mode == CFB then XorBytes(EncBlock(k, prev), c)
              else DecBlock(k, c)
    decreases j
  {
    hide EncBlock, DecBlock, XorBytes;
    var bs := k.BlockSize();
    TailIsWhole(|msg|, bs);
    var first := DecryptStep(k, mode, chain, msg[..bs]);
    var tail := msg[bs..];
    var out := Decrypt(k, mode, chain, msg).data;
    var rest := Decrypt(k, mode, first.chain, tail).data;
    assert out[..bs] == first.data && out[bs..] == rest;
    assert Block(bs, msg, 0) == msg[..bs];
    if j > 0 {
      DecryptByBlocks(k, mode, first.chain, tail, j - 1);
      BlockOfTail(bs, msg, j);
      BlockOfTail(bs, out, j);
      if j > 1 {
        BlockOfTail(bs, msg, j - 1);
      }
    }
  }

  /** In the chained modes the chain that is left is the last block of ciphertext; ECB leaves it alone. */
  lemma {:induction false} ChainIsLastBlock(k: Schedule, mode: int, chain: Bytes, msg: Bytes)
    requires LegalMessage(k, |msg|) && |chain| == k.BlockSize()
    ensures var o := Encrypt(k, mode, chain, msg);
            o.chain == if mode == 1 || mode == 2 then o.data[|msg| - k.BlockSize()..] else chain
    decreases |msg|
  {
    hide EncBlock, XorBytes;
    var bs := k.BlockSize();
    TailIsWhole(|msg|, bs);
    var first := EncryptStep(k, mode, chain, msg[..bs]);
    var rest := Encrypt(k, mode, first.chain, msg[bs..]);
    if |msg| == bs {
      assert first.data + rest.data == first.data;
    } else {
      ChainIsLastBlock(k, mode, first.chain, msg[bs..]);
      assert (first.data + rest.data)[|msg| - bs..] == rest.data[|msg| - bs - bs..];
    }
  }

  /** The same byte by byte at an offset, with the numbers of the modes: 1 is CBC, 2 is CFB, all others are ECB. */
  lemma EncryptionBytes(k: Schedule, mode: int, chain: Bytes, msg: Bytes, at: nat)
    requires Whole(k, |msg|) && |chain| == k.BlockSize() && at % k.BlockSize() == 0 && at + k.BlockSize() <= |msg|
    ensures at == 0 || at >= k.BlockSize()
    ensures var bs := k.BlockSize();
            var out := Encrypt(k, mode, chain, msg).data;
            var p, c := msg[at..at + bs], out[at..at + bs];
            var prev := if at == 0 then chain else out[at - bs..at];
            c == if mode == 1 then EncBlock(k, seq(bs, i requires 0 <= i < bs => Add(prev[i], p[i])))
                 else if mode == 2 then seq(bs, i requires 0 <= i < bs => Add(EncBlock(k, prev)[i], p[i]))
                 else EncBlock(k, p)
  {
    hide EncBlock, Encrypt, Add, Block, Previous, XorBytes;
    var bs := k.BlockSize();
    var j, out := at / bs, Encrypt(k, mode, chain, msg).data;
    OffsetOfBlock(bs, msg, at);
    OffsetOfBlock(bs, out, at);
    PreviousAt(bs, chain, out, at);
    EncryptByBlocks(k, mode, chain, msg, j);
    var p, prev := Block(bs, msg, j), Previous(bs, chain, out, j);
    XorBytesAt(prev, p);
    XorBytesAt(EncBlock(k, prev), p);
  }

  lemma DecryptionBytes(k: Schedule, mode: int, chain: Bytes, msg: Bytes, at: nat)
    requires Whole(k, |msg|) && |chain| == k.BlockSize() && at % k.BlockSize() == 0 && at + k.BlockSize() <= |msg|
    ensures at == 0 || at >= k.BlockSize()
    ensures var bs := k.BlockSize();
            var c, p := msg[at..at + bs], Decrypt(k, mode, chain, msg).data[at..at + bs];
            var prev := if at == 0 then chain else msg[at - bs..at];
            p == if mode == 1 then seq(bs, i requires 0 <= i < bs => Add(DecBlock(k, c)[i], prev[i]))
                 else if mode == 2 then seq(bs, i requires 0 <= i < bs => Add(EncBlock(k, prev)[i], c[i]))
                 else DecBlock(k, c)
  {
    hide EncBlock, DecBlock, Decrypt, Add, Block, Previous, XorBytes;
    var bs := k.BlockSize();
    var j, out := at / bs, Decrypt(k, mode, chain, msg).data;
    OffsetOfBlock(bs, msg, at);
    OffsetOfBlock(bs, out, at);
    PreviousAt(bs, chain, msg, at);
    DecryptByBlocks(k, mode, chain, msg, j);
    var c, prev := Block(bs, msg, j), Previous(bs, chain, msg, j);
    XorBytesAt(DecBlock(k, c), prev);
    XorBytesAt(EncBlock(k, prev), c);
  }

  lemma XorBytesAt(a: Bytes, b: Bytes)
    requires |a| == |b|
    ensures XorBytes(a, b) == seq(|a|, i requires 0 <= i < |a| => Add(a[i], b[i]))
  {
  }

  lemma OffsetOfBlock(bs: nat, b: Bytes, at: nat)
    requires (bs == 16 || bs == 24 || bs == 32) && at % bs == 0 && at + bs <= |b|
    ensures at == 0 || at >= bs
    ensures Through(bs, at / bs) <= |b| && Block(bs, b, at / bs) == b[at..at + bs]
  {
  }

  lemma PreviousAt(bs: nat, chain: Bytes, cipher: Bytes, at: nat)
    requires (bs == 16 || bs == 24 || bs == 32) && |chain| == bs && at % bs == 0 && at + bs <= |cipher|
    ensures at == 0 || at >= bs
    ensures Through(bs, at / bs) <= |cipher|
    ensures Previous(bs, chain, cipher, at / bs) == if at == 0 then chain else cipher[at - bs..at]
  {
    assert at > 0 ==> at / bs - 1 == (at - bs) / bs;
    OffsetOfBlock(bs, cipher, if at == 0 then 0 else at - bs);
  }

  lemma BlockOfTail(bs: nat, b: Bytes, j: nat)
    requires bs > 0 && j > 0 && Through(bs, j) <= |b|
    ensures Through(bs, j - 1) <= |b[bs..]|
    ensures Block(bs, b, j) == Block(bs, b[bs..], j - 1)
  {
  }

  // ---------------------------------------------------------------- self-synchronisation

  /** In the chained modes the state after a block does not depend on the state before it. */
  lemma ChainForgets(k: Schedule, mode: int, chain: Bytes, other: Bytes, msg: Bytes)
    requires LegalMessage(k, |msg|) && |chain| == |other| == k.BlockSize()
    requires mode == CBC || mode == CFB
    ensures Decrypt(k, mode, chain, msg).chain == Decrypt(k, mode, other, msg).chain
    ensures Decrypt(k, mode, chain, msg).data[k.BlockSize()..] == Decrypt(k, mode, other, msg).data[k.BlockSize()..]
  {
    hide EncBlock, DecBlock, XorBytes;
    var bs := k.BlockSize();
    TailIsWhole(|msg|, bs);
    var d, e := DecryptStep(k, mode, chain, msg[..bs]), DecryptStep(k, mode, other, msg[..bs]);
    var rest := Decrypt(k, mode, msg[..bs], msg[bs..]);
    assert (d.data + rest.data)[bs..] == rest.data;
    assert (e.data + rest.data)[bs..] == rest.data;
  }

  /** A receiver with the wrong chain still recovers every block after the first, and the right chain. */
  lemma SelfSynchronising(k: Schedule, mode: int, chain: Bytes, wrong: Bytes, msg: Bytes)
    requires Reversible(k, mode) && LegalMessage(k, |msg|) && |chain| == |wrong| == k.BlockSize()
    requires mode == CBC || mode == CFB
    ensures var sent := Encrypt(k, mode, chain, msg);
            var got := Decrypt(k, mode, wrong, sent.data);
            got.data[k.BlockSize()..] == msg[k.BlockSize()..] && got.chain == sent.chain
  {
    MessageRoundTrip(k, mode, chain, msg);
    ChainForgets(k, mode, chain, wrong, Encrypt(k, mode, chain, msg).data);
  }

  // ---------------------------------------------------------------- whole runs

  /** What the two ends do together: a message in some mode, or resetting both chains. */
  datatype Call = Message(mode: int, msg: Bytes) | Reset

  predicate LegalCall(k: Schedule, call: Call) {
    k.WellFormed() && (call.Message? ==> LegalMessage(k, |call.msg|))
  }

  predicate LegalCalls(k: Schedule, calls: seq<Call>) {
    forall i | 0 <= i < |calls| :: LegalCall(k, calls[i])
  }

  function SendOne(k: Schedule, chain0: Bytes, chain: Bytes, call: Call): (o: Output)
    requires LegalCall(k, call) && |chain0| == |chain| == k.BlockSize()
    ensures |o.chain| == k.BlockSize()
    ensures call.Message? ==> |o.data| == |call.msg|
  {
    match call
    case Message(mode, msg) => Encrypt(k, mode, chain, msg)
    case Reset => Output([], chain0)
  }

  function ReceiveOne(k: Schedule, chain0: Bytes, chain: Bytes, call: Call, data: Bytes): (o: Output)
    requires LegalCall(k, call) && |chain0| == |chain| == k.BlockSize()
    requires call.Message? ==> |data| == |call.msg|
    ensures |o.chain| == k.BlockSize()
  {
    match call
    case Message(mode, _) => Decrypt(k, mode, chain, data)
    case Reset => Output([], chain0)
  }

  lemma CallRoundTrip(k: Schedule, chain0: Bytes, chain: Bytes, call: Call)
    requires k.Matched() && LegalCall(k, call) && |chain0| == |chain| == k.BlockSize()
    ensures var sent := SendOne(k, chain0, chain, call);
            var got := ReceiveOne(k, chain0, chain, call, sent.data);
            got.chain == sent.chain && (call.Message? ==> got.data == call.msg)
  {
    if call.Message? {
      MessageRoundTrip(k, call.mode, chain, call.msg);
    }
  }

  datatype Run = Run(data: seq<Bytes>, chain: Bytes)

  /** The sending object: the ciphertexts of a run of calls, and its chain afterwards. */
  function Send(k: Schedule, chain0: Bytes, chain: Bytes, calls: seq<Call>): (r: Run)
    requires k.WellFormed() && LegalCalls(k, calls) && |chain0| == |chain| == k.BlockSize()
    ensures |r.data| == |calls| && |r.chain| == k.BlockSize()
    ensures forall i | 0 <= i < |calls| && calls[i].Message? :: |r.data[i]| == |calls[i].msg|
    decreases |calls|
  {
    if calls == [] then Run([], chain)
    else
      var o := SendOne(k, chain0, chain, calls[0]);
      var rest := Send(k, chain0, o.chain, calls[1..]);
      Run([o.data] + rest.data, rest.chain)
  }

  /** The receiving object, told the mode of every call and handed the ciphertexts. */
  function Receive(k: Schedule, chain0: Bytes, chain: Bytes, calls: seq<Call>, data: seq<Bytes>): (r: Run)
    requires k.WellFormed() && LegalCalls(k, calls) && |chain0| == |chain| == k.BlockSize()
    requires |data| == |calls|
    requires forall i | 0 <= i < |calls| && calls[i].Message? :: |data[i]| == |calls[i].msg|
    ensures |r.data| == |calls| && |r.chain| == k.BlockSize()
    decreases |calls|
  {
    if calls == [] then Run([], chain)
    else
      var o := ReceiveOne(k, chain0, chain, calls[0], data[0]);
      var rest := Receive(k, chain0, o.chain, calls[1..], data[1..]);
      Run([o.data] + rest.data, rest.chain)
  }

  /** Call by call: a message goes on from the chain before it, a reset goes back to the first chain. */
  lemma CallByCall(k: Schedule, chain0: Bytes, chain: Bytes, mode: int, msg: Bytes, calls: seq<Call>)
    requires k.WellFormed() && LegalMessage(k, |msg|) && LegalCalls(k, calls) && |chain0| == |chain| == k.BlockSize()
    ensures LegalCalls(k, [Message(mode, msg)] + calls) && LegalCalls(k, [Reset] + calls)
    ensures var o := Encrypt(k, mode, chain, msg);
            var sent, rest := Send(k, chain0, chain, [Message(mode, msg)] + calls), Send(k, chain0, o.chain, calls);
            sent.data == [o.data] + rest.data && sent.chain == rest.chain
    ensures var sent, rest := Send(k, chain0, chain, [Reset] + calls), Send(k, chain0, chain0, calls);
            sent.data == [[]] + rest.data && sent.chain == rest.chain
    ensures Send(k, chain0, chain, []) == Run([], chain)
  {
    hide Encrypt;
    assert ([Message(mode, msg)] + calls)[1..] == calls && ([Reset] + calls)[1..] == calls;
  }

  /** Over any run of calls, each in its own mode and with resets anywhere, the receiver reads every message and
      the two chains stay equal. */
  lemma {:induction false} RunRoundTrip(k: Schedule, chain0: Bytes, chain: Bytes, calls: seq<Call>)
    requires k.Matched() && LegalCalls(k, calls) && |chain0| == |chain| == k.BlockSize()
    ensures var sent := Send(k, chain0, chain, calls);
            var got := Receive(k, chain0, chain, calls, sent.data);
            got.chain == sent.chain &&
            forall i | 0 <= i < |calls| && calls[i].Message? :: got.data[i] == calls[i].msg
    decreases |calls|
  {
    hide SendOne, ReceiveOne, LegalCall;
    if calls != [] {
      var o := SendOne(k, chain0, chain, calls[0]);
      CallRoundTrip(k, chain0, chain, calls[0]);
      RunRoundTrip(k, chain0, o.chain, calls[1..]);
      var rest := Send(k, chain0, o.chain, calls[1..]);
      assert ([o.data] + rest.data)[1..] == rest.data;
    }
  }
}
