/** Writing blocks into buffers, as facts about sequences of bytes. */
module Buffers {
  import opened Columns
  import opened RijndaelSpec
  import opened BlockCipher

  /** `before` with a block written over it at an offset. */
  function Splice(before: Bytes, at: nat, block: Bytes): (r: Bytes)
    requires at + |block| <= |before|
    ensures |r| == |before|
  {
    before[..at] + block + before[at + |block|..]
  }

  lemma SpliceHolds(before: Bytes, at: nat, block: Bytes)
    requires at + |block| <= |before|
    ensures Splice(before, at, block)[at..at + |block|] == block
    ensures Splice(before, at, block)[..at] == before[..at]
    ensures Splice(before, at, block)[at + |block|..] == before[at + |block|..]
  {
  }

  lemma SpliceTail(before: Bytes, at: nat, block: Bytes, n: nat)
    requires at + |block| <= n <= |before|
    ensures Splice(before, at, block)[at + |block|..n] == before[at + |block|..n]
  {
  }

  lemma SpliceTwice(before: Bytes, at: nat, block: Bytes, again: Bytes)
    requires at + |block| <= |before| && |again| == |block|
    ensures Splice(Splice(before, at, block), at, again) == Splice(before, at, again)
  {
  }

  /** Appending one column to a block that is being written. */
  lemma SpliceColumn(before: Bytes, at: nat, s: State, c: Col, now: Bytes)
    requires at + 4 * |s| + 4 <= |before| && now == Splice(before, at, FromState(s))
    ensures var n := at + 4 * |s|;
            now[n := c.b0][n + 1 := c.b1][n + 2 := c.b2][n + 3 := c.b3] == Splice(before, at, FromState(s + [c]))
  {
    hide FromState;
    FromStateSnoc(s, c);
  }

  /** Four columns, one after the other. */
  lemma SpliceFour(before: Bytes, at: nat, c0: Col, c1: Col, c2: Col, c3: Col)
    requires at + 16 <= |before|
    ensures var d0 := before[at := c0.b0][at + 1 := c0.b1][at + 2 := c0.b2][at + 3 := c0.b3];
            var d1 := d0[at + 4 := c1.b0][at + 5 := c1.b1][at + 6 := c1.b2][at + 7 := c1.b3];
            var d2 := d1[at + 8 := c2.b0][at + 9 := c2.b1][at + 10 := c2.b2][at + 11 := c2.b3];
            var d3 := d2[at + 12 := c3.b0][at + 13 := c3.b1][at + 14 := c3.b2][at + 15 := c3.b3];
            d3 == Splice(before, at, FromState([c0, c1, c2, c3]))
  {
    hide FromState, Splice;
    SpliceNothing(before, at);
    SpliceColumn(before, at, [], c0, before);
    var d0 := before[at := c0.b0][at + 1 := c0.b1][at + 2 := c0.b2][at + 3 := c0.b3];
    assert [] + [c0] == [c0];
    SpliceColumn(before, at, [c0], c1, d0);
    var d1 := d0[at + 4 := c1.b0][at + 5 := c1.b1][at + 6 := c1.b2][at + 7 := c1.b3];
    assert [c0] + [c1] == [c0, c1];
    SpliceColumn(before, at, [c0, c1], c2, d1);
    var d2 := d1[at + 8 := c2.b0][at + 9 := c2.b1][at + 10 := c2.b2][at + 11 := c2.b3];
    assert [c0, c1] + [c2] == [c0, c1, c2];
    SpliceColumn(before, at, [c0, c1, c2], c3, d2);
    assert [c0, c1, c2] + [c3] == [c0, c1, c2, c3];
  }

  lemma SpliceNothing(before: Bytes, at: nat)
    requires at <= |before|
    ensures Splice(before, at, FromState([])) == before
  {
  }

  /** Moving on by one block in a buffer whose rest is the rest of a message. */
  lemma SliceAdvances(full: Bytes, msg: Bytes, at: nat, bs: nat)
    requires at + bs <= |msg| <= |full| && full[at..|msg|] == msg[at..]
    ensures full[at..at + bs] == msg[at..at + bs]
    ensures full[at + bs..|msg|] == msg[at + bs..]
  {
    assert full[at..at + bs] == full[at..|msg|][..bs];
    assert msg[at..at + bs] == msg[at..][..bs];
    assert full[at + bs..|msg|] == full[at..|msg|][bs..];
  }
}
