/** The noise filter of the touch-button firmware: a fixed history of the last
    SENSE_BUFF_LENGTH raw samples of the SENSE line, newest first, and the
    majority vote taken over it.  Everything here is a value; the in-place
    versions that work on the firmware's array are in module Firmware. */
module SenseFilter {

  /** An unsigned 8-bit value (uint8_t). */
  type byte = x: int | 0 <= x < 0x100

  /** An unsigned 16-bit value (uint16_t). */
  type uint16 = x: int | 0 <= x < 0x1_0000

  /** Number of samples the filter keeps. */
  const SENSE_BUFF_LENGTH: nat := 64

  /** The vote says "pressed" when at least this many samples are set. */
  const VOTE_THRESHOLD: nat := SENSE_BUFF_LENGTH / 2

  /** The byte that reading the SENSE pin stores: SENSE is pin 0, so masking
      the input register with 1 << 0 leaves 1 exactly when the (inverted,
      pulled-up) line reads as touched, and 0 otherwise. */
  function Sample(touched: bool): (b: byte)
    ensures b <= 1
    ensures b == 1 <==> touched
  {
    if touched then 1 else 0
  }

  /** Every entry of s is a single bit. */
  predicate AllBits(s: seq<byte>)
  {
    forall i :: 0 <= i < |s| ==> s[i] <= 1
  }

  /** A well-formed history: exactly SENSE_BUFF_LENGTH entries, each 0 or 1. */
  predicate IsHistory(h: seq<byte>)
  {
    |h| == SENSE_BUFF_LENGTH && AllBits(h)
  }

  /** The history after one filter pass: the newest sample x enters at the
      head, every other sample moves one slot toward the tail, and the sample
      that was in the last slot is discarded. */
  function Shifted(h: seq<byte>, x: byte): (r: seq<byte>)
    requires |h| == SENSE_BUFF_LENGTH
    ensures |r| == SENSE_BUFF_LENGTH
    ensures r[0] == x
    ensures forall i :: 1 <= i < SENSE_BUFF_LENGTH ==> r[i] == h[i - 1]
  {
    [x] + h[..SENSE_BUFF_LENGTH - 1]
  }

  /** Shifting a bit into a history of bits gives a history of bits. */
  lemma ShiftedKeepsBits(h: seq<byte>, x: byte)
    requires IsHistory(h) && x <= 1
    ensures IsHistory(Shifted(h, x))
  {
  }

  /** The sum of the entries, accumulated front to back as the vote does. */
  function Sum(s: seq<byte>): (n: nat)
    ensures n <= 0xFF * |s|
  {
    if s == [] then 0 else Sum(s[..|s| - 1]) + s[|s| - 1]
  }

  /** Extending a prefix by one entry adds that entry to the sum. */
  lemma SumPrefixStep(s: seq<byte>, i: nat)
    requires i < |s|
    ensures Sum(s[..i + 1]) == Sum(s[..i]) + s[i]
  {
    assert s[..i + 1][..i] == s[..i];
  }

  /** The sum peeled from the front instead of the back. */
  lemma {:induction false} SumFront(s: seq<byte>)
    requires s != []
    ensures Sum(s) == s[0] + Sum(s[1..])
  {
    if |s| > 1 {
      var init := s[..|s| - 1];
      SumFront(init);
      assert init[1..] == s[1..][..|s[1..]| - 1];
    }
  }

  /** The sum of a concatenation is the sum of the parts. */
  lemma {:induction false} SumAppend(a: seq<byte>, b: seq<byte>)
    ensures Sum(a + b) == Sum(a) + Sum(b)
  {
    if b != [] {
      assert (a + b)[..|a + b| - 1] == a + b[..|b| - 1];
      SumAppend(a, b[..|b| - 1]);
    } else {
      assert a + b == a;
    }
  }

  /** For a sequence of bits the sum is the number of set entries, so the
      accumulator never exceeds the length of the sequence. */
  lemma {:induction false} SumOfBits(s: seq<byte>)
    requires AllBits(s)
    ensures Sum(s) == multiset(s)[1]
    ensures Sum(s) <= |s|
    ensures multiset(s)[0] + multiset(s)[1] == |s|
  {
    if s != [] {
      var init := s[..|s| - 1];
      assert s == init + [s[|s| - 1]];
      SumOfBits(init);
    }
  }

  /** The vote over a history: 1 ("pressed") when at least half of the
      entries are set, 0 otherwise. */
  function Majority(h: seq<byte>): (v: byte)
    requires |h| == SENSE_BUFF_LENGTH
  {
    if Sum(h) >= VOTE_THRESHOLD then 1 else 0
  }

  /** The vote on a well-formed history is a strict majority test in both
      directions: pressed iff at least 32 of the 64 samples are set (so a
      32/32 tie is pressed), released iff more than 32 samples are clear. */
  lemma MajorityCountsOnes(h: seq<byte>)
    requires IsHistory(h)
    ensures Majority(h) == 1 <==> multiset(h)[1] >= VOTE_THRESHOLD
    ensures Majority(h) == 0 <==> multiset(h)[0] > VOTE_THRESHOLD
    ensures Sum(h) <= SENSE_BUFF_LENGTH
  {
    SumOfBits(h);
  }

  /** The history after the samples xs were shifted in, oldest first. */
  function Feed(h: seq<byte>, xs: seq<byte>): (r: seq<byte>)
    requires |h| == SENSE_BUFF_LENGTH
    ensures |r| == SENSE_BUFF_LENGTH
    decreases |xs|
  {
    if xs == [] then h else Feed(Shifted(h, xs[0]), xs[1..])
  }

  /** The elements of s in the opposite order. */
  function Reverse<T>(s: seq<T>): (r: seq<T>)
    ensures |r| == |s|
    ensures forall i :: 0 <= i < |s| ==> r[i] == s[|s| - 1 - i]
  {
    if s == [] then [] else Reverse(s[1..]) + [s[0]]
  }

  /** Reversal does not change the sum. */
  lemma {:induction false} SumReverse(s: seq<byte>)
    ensures Sum(Reverse(s)) == Sum(s)
  {
    if s != [] {
      SumReverse(s[1..]);
      SumAppend(Reverse(s[1..]), [s[0]]);
      assert Sum([s[0]]) == s[0] by {
        assert [s[0]][..0] == [];
      }
      SumFront(s);
    }
  }

  /** The history is a FIFO of fixed capacity: after feeding xs it holds the
      newest samples first, followed by what was there before, cut to the
      capacity. */
  lemma {:induction false} FeedWindow(h: seq<byte>, xs: seq<byte>)
    requires |h| == SENSE_BUFF_LENGTH
    ensures Feed(h, xs) == (Reverse(xs) + h)[..SENSE_BUFF_LENGTH]
    decreases |xs|
  {
    if xs != [] {
      var h' := Shifted(h, xs[0]);
      FeedWindow(h', xs[1..]);
      assert Reverse(xs) == Reverse(xs[1..]) + [xs[0]];
      var r := Reverse(xs[1..]);
      forall k | 0 <= k < SENSE_BUFF_LENGTH
        ensures (r + h')[k] == (Reverse(xs) + h)[k]
      {
        if k > |r| {
          assert (r + h')[k] == h'[k - |r|] == h[k - |r| - 1];
        }
      }
    }
  }

  /** Once at least SENSE_BUFF_LENGTH samples have been fed in, the history
      is exactly the most recent SENSE_BUFF_LENGTH samples, newest first:
      nothing of the earlier history remains. */
  lemma RecentWindow(h: seq<byte>, xs: seq<byte>)
    requires |h| == SENSE_BUFF_LENGTH && |xs| >= SENSE_BUFF_LENGTH
    ensures Feed(h, xs) == Reverse(xs[|xs| - SENSE_BUFF_LENGTH..])
  {
    FeedWindow(h, xs);
    var recent := xs[|xs| - SENSE_BUFF_LENGTH..];
    forall k | 0 <= k < SENSE_BUFF_LENGTH
      ensures (Reverse(xs) + h)[k] == Reverse(recent)[k]
    {
      assert Reverse(recent)[k] == recent[SENSE_BUFF_LENGTH - 1 - k] == xs[|xs| - 1 - k];
    }
  }

  /** After SENSE_BUFF_LENGTH or more samples the vote is "pressed" exactly
      when the most recent SENSE_BUFF_LENGTH samples add up to at least
      VOTE_THRESHOLD. */
  lemma RecentVote(h: seq<byte>, xs: seq<byte>, m: nat)
    requires |h| == SENSE_BUFF_LENGTH && |xs| == m + SENSE_BUFF_LENGTH
    ensures Majority(Feed(h, xs)) == 1 <==> Sum(xs[m..]) >= VOTE_THRESHOLD
  {
    var recent := xs[m..];
    RecentWindow(h, xs);
    SumReverse(recent);
  }

  /** Two histories fed the same SENSE_BUFF_LENGTH or more samples become
      equal: an older sample no longer influences the filter. */
  lemma FeedForgets(h1: seq<byte>, h2: seq<byte>, xs: seq<byte>)
    requires |h1| == SENSE_BUFF_LENGTH && |h2| == SENSE_BUFF_LENGTH
    requires |xs| >= SENSE_BUFF_LENGTH
    ensures Feed(h1, xs) == Feed(h2, xs)
  {
    RecentWindow(h1, xs);
    RecentWindow(h2, xs);
  }
}
