/**
 * The one-byte sequence number kept in a function-local static by both
 * send routines: incremented on every send that goes out, and moved to
 * 128 instead of 0 when the byte wraps, so that 0 never goes on the wire.
 */
module Seqno {
  import opened Common

  /** `seqno++` on a `uint8_t`, then the restart wrap of a zero result to 128. */
  function NextSeq(s: uint8): (r: uint8)
    ensures r != 0
    ensures s < 255 ==> r == s + 1
    ensures s == 255 ==> r == 128
  {
    var n := (s + 1) % UInt8Modulus;
    if n == 0 then 128 else n
  }

  /** The counter after `k` sends starting from `s`. */
  function SeqAfter(s: uint8, k: nat): uint8
    decreases k
  {
    if k == 0 then s else SeqAfter(NextSeq(s), k - 1)
  }

  /** The number carried by the `k`-th send of a fresh node: 1, 2, ..., 255, 128, 129, ..., 255, 128, ... */
  function EmittedSeq(k: nat): uint8
    requires k >= 1
  {
    if k <= 255 then k else 128 + (k - 256) % 128
  }

  lemma {:induction false} SeqAfterLast(s: uint8, k: nat)
    ensures SeqAfter(s, k + 1) == NextSeq(SeqAfter(s, k))
    decreases k
  {
    if k > 0 {
      SeqAfterLast(NextSeq(s), k - 1);
    }
  }

  /** The static starts at 0, so the k-th send carries EmittedSeq(k). */
  lemma {:induction false} SeqFromFresh(k: nat)
    requires k >= 1
    ensures SeqAfter(0, k) == EmittedSeq(k)
    decreases k
  {
    if k > 1 {
      SeqFromFresh(k - 1);
      SeqAfterLast(0, k - 1);
    }
  }

  /** However many sends happen, a send never emits 0. */
  lemma {:induction false} SeqNeverZero(s: uint8, k: nat)
    requires k >= 1
    ensures SeqAfter(s, k) != 0
    decreases k
  {
    if k > 1 {
      SeqNeverZero(NextSeq(s), k - 1);
    }
  }

  /** Once the counter has wrapped it stays within [128, 255]. */
  lemma {:induction false} SeqWrappedStaysHigh(s: uint8, k: nat)
    requires s >= 128
    ensures SeqAfter(s, k) >= 128
    decreases k
  {
    if k > 0 {
      SeqWrappedStaysHigh(NextSeq(s), k - 1);
    }
  }

  /** The numbers carried by `n` successive sends starting from the static at `s`. */
  function SeqRun(s: uint8, n: nat): (r: seq<uint8>)
    ensures |r| == n
    decreases n
  {
    if n == 0 then [] else [NextSeq(s)] + SeqRun(NextSeq(s), n - 1)
  }

  /** The i-th of those sends carries the static's value after i+1 increments. */
  lemma {:induction false} SeqRunAt(s: uint8, n: nat)
    ensures forall i :: 0 <= i < n ==> SeqRun(s, n)[i] == SeqAfter(s, i + 1)
    decreases n
  {
    if n > 0 {
      SeqRunAt(NextSeq(s), n - 1);
    }
  }

  /** From boot the sends carry 1, 2, ..., 255, 128, 129, ..., 255, 128, ... and never 0. */
  lemma SeqRunFromFresh(n: nat)
    ensures forall i :: 0 <= i < n ==> SeqRun(0, n)[i] == EmittedSeq(i + 1) && SeqRun(0, n)[i] != 0
  {
    SeqRunAt(0, n);
    forall i | 0 <= i < n
      ensures SeqRun(0, n)[i] == EmittedSeq(i + 1)
    {
      SeqFromFresh(i + 1);
    }
  }
}
